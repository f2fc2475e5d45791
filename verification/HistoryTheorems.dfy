// The materialised timeline agrees with the log, whatever happened in whatever order.
module HistoryTheorems {
  import opened Basics
  import opened History

  // ----- the log has no holes -----

  predicate Contiguous(s: Session) {
    && s.earliest >= 1 && |s.log| == s.last + 1 - s.earliest
    && (forall i :: 0 <= i < |s.log| ==> s.log[i].sequence == s.earliest + i)
  }

  // Rows are in order of first appearance, one to an item.
  predicate Ordered(rows: seq<Row>, last: nat) {
    && (forall i :: 0 <= i < |rows| ==> rows[i].first <= rows[i].last <= last)
    && (forall i, j :: 0 <= i < j < |rows| ==> rows[i].first < rows[j].first)
    && (forall i, j :: 0 <= i < j < |rows| ==> !(rows[i].turn == rows[j].turn && rows[i].item == rows[j].item))
  }

  predicate Ok(s: Session) {
    && Contiguous(s) && Ordered(s.timeline, s.last) && s.timeline == Fold(s.log)
    && (if s.purged then s.log == [] && s.earliest == s.last + 1 else s.earliest == 1)
  }

  lemma UpsertedOrdered(rows: seq<Row>, turn: Id, item: Id, body: Body, sequence: nat)
    requires sequence > 0 && Ordered(rows, sequence - 1)
    ensures Ordered(Upserted(rows, turn, item, body, sequence), sequence)
  {
    var k, r := Find(rows, turn, item), Upserted(rows, turn, item, body, sequence);
    forall i | 0 <= i < |rows|
      ensures r[i].first == rows[i].first && r[i].turn == rows[i].turn && r[i].item == rows[i].item
    {
    }
  }

  lemma ProjectedOrdered(rows: seq<Row>, e: Event)
    requires e.sequence > 0 && Ordered(rows, e.sequence - 1)
    ensures Ordered(Projected(rows, e), e.sequence)
  {
    if Target(e.content).Some? {
      var item := Target(e.content).value;
      var next := NextBody(BodyOf(rows, e.turn, item), e.content);
      if next.Some? { UpsertedOrdered(rows, e.turn, item, next.value, e.sequence); }
    }
  }

  lemma AppendOk(s: Session, turn: Id, c: Content)
    requires Ok(s) && !s.purged && Append(s, turn, c).Some?
    ensures Ok(Append(s, turn, c).value)
  {
    var s', e := Append(s, turn, c).value, Event(s.last + 1, turn, c);
    FoldNext(s.log, e);
    ContiguousNext(s, s');
    ProjectedOrdered(s.timeline, e);
  }

  lemma FoldNext(log: seq<Event>, e: Event)
    ensures Fold(log + [e]) == Projected(Fold(log), e)
  {
    assert (log + [e])[..|log|] == log;
  }

  lemma ContiguousNext(s: Session, s': Session)
    requires Contiguous(s) && s'.earliest == s.earliest && s'.last == s.last + 1 && |s'.log| == |s.log| + 1
    requires s'.log == s.log + [s'.log[|s.log|]] && s'.log[|s.log|].sequence == s'.last
    ensures Contiguous(s')
  {
  }

  // In every reachable state the session stores exactly the sequences from earliest to last,
  // and the timeline is the fold of the stored log.
  lemma {:induction false} RunOk(s: Session, steps: seq<Step>)
    requires Ok(s)
    ensures Ok(Run(s, steps))
    decreases |steps|
  {
    if steps != [] {
      var step := steps[0];
      if step.Write? && !s.purged && Append(s, step.turn, step.content).Some? { AppendOk(s, step.turn, step.content); }
      RunOk(Apply(s, step), steps[1..]);
    }
  }

  lemma EmptyOk()
    ensures Ok(EMPTY)
  {
  }

  // A purged log stays empty and its cursor stays put: `Apply` writes nothing to it. That the
  // handlers indeed refuse is SessionTheorems.Tombstone.
  lemma {:induction false} PurgedForGood(s: Session, steps: seq<Step>)
    requires Ok(s) && s.purged
    ensures Run(s, steps).purged && Run(s, steps).log == [] && Run(s, steps).last == s.last && Run(s, steps).earliest == s.last + 1
    decreases |steps|
  {
    if steps != [] { PurgedForGood(Apply(s, steps[0]), steps[1..]); }
  }

  // ----- what a message item shows -----

  predicate IsMessage(c: Content) {
    c.Delta? || c.Completed?
  }

  predicate Touches(e: Event, turn: Id, item: Id) {
    e.turn == turn && Target(e.content) == Some(item)
  }

  // Every event that touches the item is a message event.
  predicate OnlyMessages(log: seq<Event>, turn: Id, item: Id) {
    forall i :: 0 <= i < |log| && Touches(log[i], turn, item) ==> IsMessage(log[i].content)
  }

  function Touching(log: seq<Event>, turn: Id, item: Id): (r: seq<Content>)
  {
    if log == [] then []
    else
      var e := log[|log| - 1];
      Touching(log[..|log| - 1], turn, item) + if Touches(e, turn, item) && IsMessage(e.content) then [e.content] else []
  }

  // The last completed message, if any.
  function LastCompleted(cs: seq<Content>): (r: Option<Content>)
    ensures r.Some? ==> r.value.Completed?
  {
    if cs == [] then None
    else if cs[|cs| - 1].Completed? then Some(cs[|cs| - 1])
    else LastCompleted(cs[..|cs| - 1])
  }

  function Concatenated(cs: seq<Content>): string {
    if cs == [] then ""
    else
      Concatenated(cs[..|cs| - 1]) + if cs[|cs| - 1].Delta? then cs[|cs| - 1].text else ""
  }

  function RoleOf(c: Content): Role {
    match c
    case Delta(_, role, _) => role
    case Completed(_, role, _, _) => role
    case _ => User
  }

  // What the item should show, read off all its events at once: the last completed text; or
  // else the first runes of all deltas together, marked truncated exactly if there are more.
  function Summary(cs: seq<Content>): Option<Body> {
    match LastCompleted(cs)
    case Some(c) => Some(Message(c.role, Truncate(c.text, TEXT_LIMIT).0, true, |c.text| > TEXT_LIMIT || c.truncated))
    case None =>
      if cs == [] then None
      else
        var all := Concatenated(cs);
        Some(Message(RoleOf(cs[|cs| - 1]), Truncate(all, TEXT_LIMIT).0, false, |all| > TEXT_LIMIT))
  }

  lemma SummaryStep(cs: seq<Content>, c: Content)
    requires IsMessage(c) && forall i :: 0 <= i < |cs| ==> IsMessage(cs[i])
    ensures Summary(cs + [c]) == match NextBody(Summary(cs), c) case None => Summary(cs) case Some(b) => Some(b)
  {
    var all := cs + [c];
    assert all[..|all| - 1] == cs;
    if c.Delta? && LastCompleted(cs).None? {
      var a, b := Concatenated(cs), c.text;
      assert Truncate(Truncate(a, TEXT_LIMIT).0 + b, TEXT_LIMIT).0 == Truncate(a + b, TEXT_LIMIT).0;
    }
  }

  lemma {:induction false} TouchingMessages(log: seq<Event>, turn: Id, item: Id)
    ensures forall i :: 0 <= i < |Touching(log, turn, item)| ==> IsMessage(Touching(log, turn, item)[i])
  {
    if log != [] { TouchingMessages(log[..|log| - 1], turn, item); }
  }

  lemma {:induction false} FindExtended(rows: seq<Row>, r: Row, turn: Id, item: Id)
    ensures Find(rows + [r], turn, item)
         == if Find(rows, turn, item) < |rows| then Find(rows, turn, item)
            else if r.turn == turn && r.item == item then |rows| else |rows| + 1
  {
    var all := rows + [r];
    var f, g := Find(rows, turn, item), Find(all, turn, item);
    assert forall i :: 0 <= i < |rows| ==> all[i] == rows[i];
    assert all[|rows|] == r;
    if f < |rows| { assert all[f] == rows[f]; }
    if g < |rows| { assert all[g] == rows[g]; }
  }

  lemma {:induction false} FindUpdated(rows: seq<Row>, k: nat, r: Row, turn: Id, item: Id)
    requires k < |rows| && r.turn == rows[k].turn && r.item == rows[k].item
    ensures Find(rows[k := r], turn, item) == Find(rows, turn, item)
  {
    var all := rows[k := r];
    var f, g := Find(rows, turn, item), Find(all, turn, item);
    assert forall i :: 0 <= i < |rows| ==> all[i].turn == rows[i].turn && all[i].item == rows[i].item;
    if f < |rows| { assert all[f].turn == turn; }
    if g < |rows| { assert rows[g].turn == turn; }
  }

  // An event changes the body of its own item only, as the next body says.
  lemma ProjectedBody(rows: seq<Row>, e: Event, turn: Id, item: Id)
    ensures BodyOf(Projected(rows, e), turn, item)
         == if Touches(e, turn, item) && NextBody(BodyOf(rows, turn, item), e.content).Some?
            then NextBody(BodyOf(rows, turn, item), e.content) else BodyOf(rows, turn, item)
  {
    if Target(e.content).Some? {
      var it := Target(e.content).value;
      var k, next := Find(rows, e.turn, it), NextBody(BodyOf(rows, e.turn, it), e.content);
      if next.Some? {
        if k < |rows| {
          FindUpdated(rows, k, rows[k].(last := e.sequence, body := next.value), turn, item);
        } else {
          FindExtended(rows, Row(e.turn, it, e.sequence, e.sequence, next.value), turn, item);
        }
      }
    }
  }

  // The closed form of a message item, for every log.
  lemma {:induction false} MessageShows(log: seq<Event>, turn: Id, item: Id)
    requires OnlyMessages(log, turn, item)
    ensures BodyOf(Fold(log), turn, item) == Summary(Touching(log, turn, item))
  {
    if log != [] {
      var before, e := log[..|log| - 1], log[|log| - 1];
      assert forall i :: 0 <= i < |before| ==> log[i] == before[i];
      MessageShows(before, turn, item);
      ProjectedBody(Fold(before), e, turn, item);
      TouchingMessages(before, turn, item);
      assert Touches(log[|log| - 1], turn, item) ==> IsMessage(e.content);
      var cs := Touching(before, turn, item);
      if Touches(e, turn, item) {
        assert Touching(log, turn, item) == cs + [e.content];
        SummaryStep(cs, e.content);
      } else {
        assert Touching(log, turn, item) == cs;
      }
    }
  }

  // Late deltas change nothing.
  lemma LateDelta(log: seq<Event>, e: Event, item: Id)
    requires OnlyMessages(log, e.turn, item) && e.content.Delta? && e.content.item == item
    requires LastCompleted(Touching(log, e.turn, item)).Some?
    ensures Fold(log + [e]) == Fold(log)
  {
    MessageShows(log, e.turn, item);
    assert (log + [e])[..|log|] == log;
  }

  // ----- first appearance -----

  function Key(e: Event): Option<(Id, Id)> {
    match Target(e.content) case None => None case Some(item) => Some((e.turn, item))
  }

  function Keys(rows: seq<Row>): seq<(Id, Id)> {
    seq(|rows|, i requires 0 <= i < |rows| => (rows[i].turn, rows[i].item))
  }

  // Whether this event is the first to touch its item.
  predicate Debut(log: seq<Event>, n: nat)
    requires n < |log|
  {
    Key(log[n]).Some? && forall i :: 0 <= i < n ==> Key(log[i]) != Key(log[n])
  }

  function Debuts(log: seq<Event>, n: nat): seq<(Id, Id)>
    requires n <= |log|
  {
    if n == 0 then []
    else Debuts(log, n - 1) + if Debut(log, n - 1) then [Key(log[n - 1]).value] else []
  }

  lemma {:induction false} ShownIfTouched(log: seq<Event>, turn: Id, item: Id)
    ensures Find(Fold(log), turn, item) < |Fold(log)| <==> exists i :: 0 <= i < |log| && Key(log[i]) == Some((turn, item))
  {
    if log != [] {
      var before, e := log[..|log| - 1], log[|log| - 1];
      ShownIfTouched(before, turn, item);
      ProjectedBody(Fold(before), e, turn, item);
      assert forall i :: 0 <= i < |before| ==> log[i] == before[i];
      assert BodyOf(Fold(log), turn, item).Some? <==> BodyOf(Fold(before), turn, item).Some? || Touches(e, turn, item);
      if Touches(e, turn, item) { assert Key(log[|log| - 1]) == Some((turn, item)); }
    }
  }

  lemma {:induction false} DebutsPrefix(log: seq<Event>, n: nat, m: nat)
    requires n <= m <= |log|
    ensures Debuts(log[..m], n) == Debuts(log, n)
  {
    if n > 0 { DebutsPrefix(log, n - 1, m); }
  }

  // The timeline lists every item ever touched, once, in order of first appearance.
  lemma {:induction false} FirstAppearance(log: seq<Event>)
    ensures Keys(Fold(log)) == Debuts(log, |log|)
  {
    if log != [] {
      var n := |log| - 1;
      var before, e := log[..n], log[n];
      FirstAppearance(before);
      DebutsPrefix(log, n, n);
      if Key(e).Some? {
        ShownIfTouched(before, e.turn, Key(e).value.1);
        assert Debut(log, n) <==> Find(Fold(before), e.turn, Key(e).value.1) == |Fold(before)| by {
          assert forall i :: 0 <= i < n ==> log[i] == before[i];
        }
      }
    }
  }

  // ----- checkpoints -----

  lemma {:induction false} FindSame(rows: seq<Row>, turn: Id, item: Id)
    ensures FindEntry(Entries(rows), turn, item) == Find(rows, turn, item)
  {
    var f, g := Find(rows, turn, item), FindEntry(Entries(rows), turn, item);
    assert forall i :: 0 <= i < |rows| ==> Entries(rows)[i].turn == rows[i].turn && Entries(rows)[i].item == rows[i].item;
    if f < |rows| { assert g <= f; }
    if g < |rows| { assert f <= g; }
  }

  lemma ReplayedSame(rows: seq<Row>, e: Event)
    ensures Replayed(Entries(rows), e) == Entries(Projected(rows, e))
  {
    if Target(e.content).Some? { FindSame(rows, e.turn, Target(e.content).value); }
  }

  lemma {:induction false} ReplayFold(log: seq<Event>, n: nat)
    requires n <= |log|
    ensures Replay(Entries(Fold(log[..n])), log[n..]) == Entries(Fold(log))
    decreases |log| - n
  {
    if n < |log| {
      assert log[..n + 1][..n] == log[..n];
      ReplayedSame(Fold(log[..n]), log[n]);
      ReplayFold(log, n + 1);
      assert log[n..][1..] == log[n + 1..];
    } else {
      assert log[..n] == log;
    }
  }

  // A client that loads a checkpoint and then replays the later events holds exactly the
  // current timeline, in order, however much was appended in between.
  lemma {:induction false} CheckpointReplays(s: Session, bytes: nat, steps: seq<Step>)
    requires Ok(s) && TakeCheckpoint(s, bytes).Some? && !Run(s, steps).purged
    ensures var c, s' := TakeCheckpoint(s, bytes).value, Run(s, steps);
      c.sequence <= |s'.log| && Replay(c.items, s'.log[c.sequence..]) == Entries(s'.timeline)
  {
    var s' := Run(s, steps);
    RunOk(s, steps);
    LogGrows(s, steps);
    assert s'.log[..|s.log|] == s.log && |s.log| == s.last;
    ReplayFold(s'.log, |s.log|);
  }

  lemma {:induction false} LogGrows(s: Session, steps: seq<Step>)
    requires Ok(s) && !Run(s, steps).purged
    ensures s.log <= Run(s, steps).log && !s.purged
    decreases |steps|
  {
    if steps != [] {
      var s1 := Apply(s, steps[0]);
      RunOk(s, [steps[0]]);
      assert Run(s, [steps[0]]) == s1 by { assert [steps[0]][1..] == []; }
      LogGrows(s1, steps[1..]);
    }
  }
}
