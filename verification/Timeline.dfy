// What the timeline shows of any item after any log, read off the events that touch it.
module Timeline {
  import opened Basics
  import opened History
  import opened HistoryTheorems

  // ----- the closed form -----

  // The events that touch an item, in order.
  function Events(log: seq<Event>, turn: Id, item: Id): seq<Event> {
    if log == [] then []
    else
      var e := log[|log| - 1];
      Events(log[..|log| - 1], turn, item) + if Touches(e, turn, item) then [e] else []
  }

  function Cut(text: string): string {
    if |text| > TEXT_LIMIT then text[..TEXT_LIMIT] else text
  }

  // A content that replaces whatever was shown, with what it shows.
  function Given(c: Content): Option<Body> {
    match c
    case Completed(_, role, text, truncated) =>
      Some(Message(role, Cut(text), true, |text| > TEXT_LIMIT || truncated))
    case ItemUpsert(_, _, body) => Some(body)
    case RequestUpsert(request) => Some(Request(request))
    case _ => None
  }

  // How many events there are up to the last one that is no delta.
  function Settled(es: seq<Event>): (n: nat)
    ensures n <= |es|
    ensures n > 0 ==> !es[n - 1].content.Delta?
    ensures forall i :: n <= i < |es| ==> es[i].content.Delta?
  {
    if es == [] then 0 else if !es[|es| - 1].content.Delta? then |es| else Settled(es[..|es| - 1])
  }

  // The text a delta continues, and whether some of it is missing.
  function PriorText(base: Option<Body>): string {
    match base
    case Some(Message(_, text, _, _)) => text
    case Some(Note(_, text)) => text
    case _ => ""
  }

  predicate PriorCut(base: Option<Body>) {
    match base
    case Some(Message(_, _, _, truncated)) => truncated
    case Some(Tool(_, truncated)) => truncated
    case _ => false
  }

  predicate Final(base: Option<Body>) {
    match base case Some(Message(_, _, complete, _)) => complete case _ => false
  }

  function Deltas(es: seq<Event>): string {
    if es == [] then ""
    else Deltas(es[..|es| - 1]) + if es[|es| - 1].content.Delta? then es[|es| - 1].content.text else ""
  }

  function BaseOf(es: seq<Event>): Option<Body> {
    if Settled(es) == 0 then None else Given(es[Settled(es) - 1].content)
  }

  // The body: what the last event that is no delta gave, and behind it the deltas since,
  // unless it gave a complete message.
  function ShownBody(es: seq<Event>): Option<Body> {
    var n, base := Settled(es), BaseOf(es);
    if n == |es| || Final(base) then base
    else
      var all := PriorText(base) + Deltas(es[n..]);
      Some(Message(RoleOf(es[|es| - 1].content), Cut(all), false, |all| > TEXT_LIMIT || PriorCut(base)))
  }

  // The last event that was no delta behind a complete message.
  function LastShown(es: seq<Event>): nat
    requires es != []
  {
    if Final(BaseOf(es)) && Settled(es) > 0 then es[Settled(es) - 1].sequence else es[|es| - 1].sequence
  }

  function RowOf(rows: seq<Row>, turn: Id, item: Id): Option<Row> {
    var k := Find(rows, turn, item);
    if k < |rows| then Some(rows[k]) else None
  }

  function Shown(es: seq<Event>, turn: Id, item: Id): Option<Row> {
    if es == [] || ShownBody(es).None? then None
    else Some(Row(turn, item, es[0].sequence, LastShown(es), ShownBody(es).value))
  }

  // ----- one event -----

  lemma {:induction false} ProjectedRow(rows: seq<Row>, e: Event, turn: Id, item: Id)
    ensures RowOf(Projected(rows, e), turn, item) ==
      var was := RowOf(rows, turn, item);
      if !Touches(e, turn, item) then was
      else
        match NextBody(BodyOf(rows, turn, item), e.content)
        case None => was
        case Some(body) =>
          (match was
           case None => Some(Row(turn, item, e.sequence, e.sequence, body))
           case Some(r) => Some(r.(last := e.sequence, body := body)))
  {
    if Target(e.content).Some? {
      var it := Target(e.content).value;
      var k, next := Find(rows, e.turn, it), NextBody(BodyOf(rows, e.turn, it), e.content);
      if next.Some? {
        if k < |rows| {
          FindUpdated(rows, k, rows[k].(last := e.sequence, body := next.value), turn, item);
        } else {
          FindExtended(rows, Row(e.turn, it, e.sequence, e.sequence, next.value), turn, item);
        }
      }
    }
  }

  lemma {:induction false} SettledNext(es: seq<Event>, e: Event)
    ensures Settled(es + [e]) == if e.content.Delta? then Settled(es) else |es| + 1
    ensures e.content.Delta? ==> BaseOf(es + [e]) == BaseOf(es)
    ensures !e.content.Delta? ==> BaseOf(es + [e]) == Given(e.content)
  {
    assert (es + [e])[..|es|] == es;
  }

  lemma {:induction false} DeltasNext(es: seq<Event>, n: nat, e: Event)
    requires n <= |es| && e.content.Delta?
    ensures Deltas((es + [e])[n..]) == Deltas(es[n..]) + e.content.text
  {
    assert (es + [e])[n..] == es[n..] + [e];
    assert (es[n..] + [e])[..|es| - n] == es[n..];
  }

  lemma {:induction false} TouchesGive(log: seq<Event>, turn: Id, item: Id)
    ensures forall i :: 0 <= i < |Events(log, turn, item)| ==> Touches(Events(log, turn, item)[i], turn, item)
  {
    if log != [] { TouchesGive(log[..|log| - 1], turn, item); }
  }

  // A content that is no delta shows what it gives.
  lemma {:induction false} GivenNext(es: seq<Event>, e: Event, prev: Option<Body>)
    requires Target(e.content).Some? && !e.content.Delta?
    ensures NextBody(prev, e.content) == Given(e.content) && Given(e.content).Some?
    ensures ShownBody(es + [e]) == Given(e.content) && LastShown(es + [e]) == e.sequence
  {
    SettledNext(es, e);
  }

  // A delta behind a complete message shows nothing new.
  lemma {:induction false} LateNext(es: seq<Event>, e: Event)
    requires e.content.Delta? && Final(BaseOf(es))
    ensures NextBody(ShownBody(es), e.content) == None
    ensures es != [] && ShownBody(es + [e]) == ShownBody(es) && LastShown(es + [e]) == LastShown(es)
  {
    SettledNext(es, e);
    if Settled(es) > 0 { assert (es + [e])[Settled(es) - 1] == es[Settled(es) - 1]; }
  }

  lemma {:induction false} CutTwice(a: string, b: string)
    ensures Cut(Cut(a) + b) == Cut(a + b)
    ensures |a + b| > TEXT_LIMIT <==> |a| > TEXT_LIMIT || |Cut(a) + b| > TEXT_LIMIT
  {
  }

  lemma {:induction false} FirstDelta(es: seq<Event>, e: Event)
    requires e.content.Delta? && !Final(BaseOf(es)) && Settled(es) == |es| && (es != [] ==> BaseOf(es).Some?)
    ensures NextBody(ShownBody(es), e.content) == ShownBody(es + [e]) && ShownBody(es + [e]).Some?
    ensures LastShown(es + [e]) == e.sequence
  {
    SettledNext(es, e);
    DeltasNext(es, |es|, e);
    assert es[|es|..] == [] && Deltas([]) == "";
    assert "" + e.content.text == e.content.text;
  }

  lemma {:induction false} MessageNext(role: Role, text: string, cut: bool, c: Content)
    requires c.Delta?
    ensures NextBody(Some(Message(role, text, false, cut)), c) == Some(Message(c.role, Cut(text + c.text), false, |text + c.text| > TEXT_LIMIT || cut))
  {
  }

  // What is shown while deltas come in.
  lemma {:induction false} ShownDeltas(es: seq<Event>)
    requires Settled(es) < |es| && !Final(BaseOf(es))
    ensures var all := PriorText(BaseOf(es)) + Deltas(es[Settled(es)..]);
      ShownBody(es) == Some(Message(RoleOf(es[|es| - 1].content), Cut(all), false, |all| > TEXT_LIMIT || PriorCut(BaseOf(es))))
  {
  }

  lemma {:induction false} NextDelta(es: seq<Event>, e: Event)
    requires e.content.Delta? && !Final(BaseOf(es)) && Settled(es) < |es|
    ensures NextBody(ShownBody(es), e.content) == ShownBody(es + [e]) && ShownBody(es + [e]).Some?
    ensures LastShown(es + [e]) == e.sequence
  {
    var n, base := Settled(es), BaseOf(es);
    var before := PriorText(base) + Deltas(es[n..]);
    var after := PriorText(base) + Deltas((es + [e])[n..]);
    SettledNext(es, e);
    DeltasNext(es, n, e);
    assert before + e.content.text == after;
    ShownDeltas(es);
    ShownDeltas(es + [e]);
    CutTwice(before, e.content.text);
    MessageNext(RoleOf(es[|es| - 1].content), Cut(before), |before| > TEXT_LIMIT || PriorCut(base), e.content);
  }

  lemma {:induction false} ShownNext(es: seq<Event>, e: Event, turn: Id, item: Id)
    requires Target(e.content).Some? && (es != [] ==> ShownBody(es).Some?)
    ensures ShownBody(es + [e]).Some?
    ensures match NextBody(ShownBody(es), e.content)
      case None => es != [] && ShownBody(es + [e]) == ShownBody(es) && LastShown(es + [e]) == LastShown(es)
      case Some(body) => ShownBody(es + [e]) == Some(body) && LastShown(es + [e]) == e.sequence
  {
    if !e.content.Delta? { GivenNext(es, e, ShownBody(es)); }
    else if Final(BaseOf(es)) { LateNext(es, e); }
    else if Settled(es) == |es| { FirstDelta(es, e); }
    else { NextDelta(es, e); }
  }

  // ----- every log -----

  // The row of every item of every log: its body, the first event that touched it, and the
  // last one that was no delta behind a complete message.
  lemma {:induction false} ItemShows(log: seq<Event>, turn: Id, item: Id)
    ensures RowOf(Fold(log), turn, item) == Shown(Events(log, turn, item), turn, item)
    ensures Events(log, turn, item) != [] ==> ShownBody(Events(log, turn, item)).Some?
  {
    if log != [] {
      var before, e := log[..|log| - 1], log[|log| - 1];
      var es := Events(before, turn, item);
      ItemShows(before, turn, item);
      ProjectedRow(Fold(before), e, turn, item);
      assert BodyOf(Fold(before), turn, item) == if es == [] then None else ShownBody(es);
      if Touches(e, turn, item) {
        if es == [] { assert ShownBody(es) == None; }
        ShownNext(es, e, turn, item);
        assert (es + [e])[0] == if es == [] then e else es[0];
        assert Events(log, turn, item) == es + [e];
      } else {
        assert Events(log, turn, item) == es;
      }
    }
  }

  // No later event touches the item.
  predicate LastTouch(log: seq<Event>, i: nat, turn: Id, item: Id) {
    i < |log| && Touches(log[i], turn, item) && forall j :: i < j < |log| ==> !Touches(log[j], turn, item)
  }

  lemma {:induction false} LastTouchEnds(log: seq<Event>, i: nat, turn: Id, item: Id)
    requires LastTouch(log, i, turn, item)
    ensures var es := Events(log, turn, item); es != [] && es[|es| - 1] == log[i]
    decreases |log|
  {
    if i < |log| - 1 {
      assert !Touches(log[|log| - 1], turn, item);
      LastTouchEnds(log[..|log| - 1], i, turn, item);
    }
  }

  // An upsert shows its body until the item is touched again, and a request event the request.
  lemma {:induction false} LastUpsertShows(log: seq<Event>, i: nat, turn: Id, item: Id)
    requires LastTouch(log, i, turn, item)
    ensures log[i].content.ItemUpsert? ==> BodyOf(Fold(log), turn, item) == Some(log[i].content.body)
    ensures log[i].content.RequestUpsert? ==> BodyOf(Fold(log), turn, item) == Some(Request(log[i].content.request))
    ensures !log[i].content.Delta? ==> RowOf(Fold(log), turn, item).Some? && RowOf(Fold(log), turn, item).value.last == log[i].sequence
  {
    var es := Events(log, turn, item);
    ItemShows(log, turn, item);
    LastTouchEnds(log, i, turn, item);
    if !log[i].content.Delta? { assert Settled(es) == |es|; }
  }

  // ----- appending and checkpoints -----

  // An event is refused exactly if it names another turn, an unknown request or diff file, or
  // a diff file that exists or is another session's; then nothing changes.
  lemma {:induction false} AppendExactly(s: Session, turn: Id, c: Content)
    ensures Append(s, turn, c).None? <==>
      match c
      case ItemUpsert(_, owner, Request(request)) => owner != turn || request !in s.requests || s.requests[request] != turn
      case ItemUpsert(_, owner, Diff(files)) => owner != turn || exists i :: 0 <= i < |files| && !(files[i] in s.files && s.files[files[i]] == turn)
      case ItemUpsert(_, owner, _) => owner != turn
      case DiffFile(file, ours) => !ours || file in s.files
      case _ => false
    ensures Append(s, turn, c).Some? ==>
      var s' := Append(s, turn, c).value;
      && s'.last == s.last + 1 && s'.log == s.log + [Event(s.last + 1, turn, c)]
      && s' == s.(last := s'.last, log := s'.log, timeline := s'.timeline, files := s'.files)
      && s'.files == (if c.DiffFile? then s.files[c.file := turn] else s.files)
  {
    match c
    case ItemUpsert(_, owner, Diff(files)) =>
      if exists f :: f in files && !(f in s.files && s.files[f] == turn) {
        var f :| f in files && !(f in s.files && s.files[f] == turn);
        var i :| 0 <= i < |files| && files[i] == f;
      }
    case _ =>
  }

  // A checkpoint is taken of every history that is not purged and not too large, and holds the
  // whole timeline.
  lemma {:induction false} CheckpointExactly(s: Session, bytes: nat)
    ensures TakeCheckpoint(s, bytes).Some? <==> !s.purged && |s.timeline| <= 10000 && bytes <= 33554432
    ensures TakeCheckpoint(s, bytes).Some? ==>
      var c := TakeCheckpoint(s, bytes).value;
      && c.sequence == s.last && |c.items| == |s.timeline|
      && forall i :: 0 <= i < |s.timeline| ==> c.items[i] == Entry(s.timeline[i].turn, s.timeline[i].item, s.timeline[i].body)
  {
  }
}
