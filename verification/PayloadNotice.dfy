// Exactly when clearing one payload can ever be noticed: the exact condition under which the
// daily clearing is no refinement, with a run that shows the difference whenever it holds.
module PayloadNotice {
  import opened Basics
  import opened SessionTables
  import opened SessionMirror
  import opened SessionSafety
  import opened SessionTheorems
  import opened PayloadGc

  // ----- runs of the one machine -----

  // Which transactions of a run go through.
  ghost function Outcomes(t: Tables, steps: seq<Step>): seq<bool>
    requires Inv(t)
  {
    ClearRun(t, steps).0
  }

  predicate ClearFree(steps: seq<Step>) {
    forall i :: 0 <= i < |steps| ==> !steps[i].ClearPayload?
  }

  lemma {:induction false} RunEnds(t: Tables, steps: seq<Step>)
    requires Inv(t)
    ensures ClearRun(t, steps).1 == Run(t, steps)
    decreases |steps|
  {
    if steps != [] {
      AfterKeeps(t, steps[0]);
      RunEnds(After(t, steps[0]), steps[1..]);
    }
  }

  // Without a clearing step both machines are the same.
  lemma {:induction false} ClearFreeSame(t: Tables, steps: seq<Step>)
    requires Inv(t) && ClearFree(steps)
    ensures KeepRun(t, steps) == ClearRun(t, steps) && |Outcomes(t, steps)| == |steps|
    decreases |steps|
  {
    if steps != [] {
      AfterKeeps(t, steps[0]);
      ClearFreeSame(After(t, steps[0]), steps[1..]);
    }
  }

  // ----- no difference -----

  // Two machines that differ in useless payloads take every step alike, clearing too.
  lemma {:induction false} BothStep(a: Tables, b: Tables, s: Step)
    requires Inv(a) && Inv(b) && ClearedFrom(a, b)
    ensures ClearedFrom(After(a, s), After(b, s)) && (!s.ClearPayload? ==> Apply(a, s).Some? == Apply(b, s).Some?)
  {
    if s.ClearPayload? { BothClear(a, b, s.op); } else { StepInStep(a, b, s); }
  }

  // A cleared payload, or the same tables.
  lemma {:induction false} Clearing(t: Tables, op: Id)
    requires Inv(t)
    ensures ClearsTo(t, op, After(t, ClearPayload(op)))
  {
  }

  lemma {:induction false} SameClearable(a: Tables, b: Tables, op: Id)
    requires ClearedFrom(a, b) && op in a.ops
    ensures b.ops[op] == a.ops[op] ==> Clearable(a, op) == Clearable(b, op)
    ensures b.ops[op] != a.ops[op] ==> !Clearable(b, op)
  {
  }

  lemma {:induction false} BothClear(a: Tables, b: Tables, op: Id)
    requires Inv(a) && Inv(b) && ClearedFrom(a, b)
    ensures ClearedFrom(After(a, ClearPayload(op)), After(b, ClearPayload(op)))
  {
    Clearing(a, op);
    Clearing(b, op);
    if op in a.ops { SameClearable(a, b, op); }
    BothCleared(a, b, After(a, ClearPayload(op)), After(b, ClearPayload(op)), op);
  }

  predicate ClearsTo(t: Tables, op: Id, t': Tables) {
    if op in t.ops && Clearable(t, op) then t' == t.(ops := t.ops[op := t.ops[op].(payload := None)]) else t' == t
  }

  lemma {:induction false} BothCleared(a: Tables, b: Tables, a': Tables, b': Tables, op: Id)
    requires ClearedFrom(a, b) && ClearsTo(a, op, a') && ClearsTo(b, op, b')
    requires op in a.ops && b.ops[op] == a.ops[op] ==> Clearable(a, op) == Clearable(b, op)
    requires op in a.ops && b.ops[op] != a.ops[op] ==> !Clearable(b, op)
    ensures ClearedFrom(a', b')
  {
    if op in a.ops && Clearable(a, op) {
      assert b'.ops == b.ops[op := a'.ops[op]];
      StillBlocked(a, a');
      StillCleared(a, b, a', b', op);
    }
  }

  lemma {:induction false} StillCleared(a: Tables, b: Tables, a': Tables, b': Tables, op: Id)
    requires ClearedFrom(a, b) && op in a.ops && (Blocked(a) ==> Blocked(a'))
    requires a' == a.(ops := a.ops[op := a.ops[op].(payload := None)]) && b' == b.(ops := b.ops[op := a'.ops[op]])
    ensures ClearedFrom(a', b')
  {
    forall o | o in a'.ops && b'.ops[o] != a'.ops[o]
      ensures b'.ops[o] == a'.ops[o].(payload := None) && Useless(a', o)
    {
      assert Useless(a, o);
    }
  }

  lemma {:induction false} StillBlocked(a: Tables, a': Tables)
    requires a'.queue == a.queue && a'.purged == a.purged
    requires forall o :: o in a.ops ==> o in a'.ops && a'.ops[o].state == a.ops[o].state
    ensures Blocked(a) ==> Blocked(a')
  {
    if Stuck(a) {
      var i :| 0 <= i < |a.queue| && StuckRow(a.ops, a.queue[i]);
      assert StuckRow(a'.ops, a'.queue[i]);
    }
  }

  lemma {:induction false} BothRun(a: Tables, b: Tables, steps: seq<Step>)
    requires Inv(a) && Inv(b) && ClearedFrom(a, b)
    ensures Outcomes(a, steps) == Outcomes(b, steps)
    decreases |steps|
  {
    if steps != [] {
      AfterKeeps(a, steps[0]);
      AfterKeeps(b, steps[0]);
      BothStep(a, b, steps[0]);
      BothRun(After(a, steps[0]), After(b, steps[0]), steps[1..]);
    }
  }

  // ----- a difference -----

  // A report naming an operation that lost its payload is refused, whatever the tables.
  lemma {:induction false} PayloadMissed(t: Tables, u: Snapshot, now: int, i: nat)
    requires Inv(t) && !t.purged && i < |u.queue| && (u.queue[i].op in t.ops ==> t.ops[u.queue[i].op].payload.None?)
    ensures SessionUpdate(t, u, now).None?
  {
    if TurnAllowed(t, u) {
      var rows := BeforeMirror(t, u);
      BeforeMirrorOk(t, u);
      MirrorExact(t.ops, rows, Spent(rows), u.queue);
      assert !Mirrors(t.ops, u.queue[i]);
    }
  }

  lemma {:induction false} NeverRestored(t: Tables, steps: seq<Step>, op: Id)
    requires Inv(t) && op in t.ops && t.ops[op].payload.None?
    ensures op in Run(t, steps).ops && Run(t, steps).ops[op].payload.None?
    decreases |steps|
  {
    if steps != [] {
      AfterKeeps(t, steps[0]);
      if Apply(t, steps[0]).Some? { StepOps(t, steps[0]); }
      NeverRestored(After(t, steps[0]), steps[1..], op);
    }
  }

  lemma {:induction false} OneStep(t: Tables, s: Step)
    requires Inv(t) && !s.ClearPayload?
    ensures Outcomes(t, [s]) == [Apply(t, s).Some?] && Outcomes(t, []) == [] && Run(t, []) == t
  {
    AfterKeeps(t, s);
    assert [s][1..] == [];
    assert Outcomes(After(t, s), []) == [];
  }

  lemma {:induction false} FirstStep(t: Tables, s: Step, rest: seq<Step>)
    requires Inv(t) && !s.ClearPayload?
    ensures Inv(After(t, s)) && Outcomes(t, [s] + rest) == [Apply(t, s).Some?] + Outcomes(After(t, s), rest)
    ensures Run(t, [s] + rest) == Run(After(t, s), rest)
  {
    AfterKeeps(t, s);
    assert ([s] + rest)[0] == s && ([s] + rest)[1..] == rest;
  }

  lemma {:induction false} Joined(x: seq<bool>, y: seq<bool>, z: seq<bool>)
    ensures x + (y + z) == (x + y) + z
  {
  }

  lemma {:induction false} RunThen(t: Tables, steps: seq<Step>, s: Step)
    requires Inv(t) && ClearFree(steps) && !s.ClearPayload?
    ensures Outcomes(t, steps + [s]) == Outcomes(t, steps) + [Apply(Run(t, steps), s).Some?]
    ensures |Outcomes(t, steps)| == |steps|
    decreases |steps|
  {
    if steps == [] {
      OneStep(t, s);
      assert steps + [s] == [s];
    } else {
      var first, rest := steps[0], steps[1..];
      var ok, t' := [Apply(t, first).Some?], After(t, first);
      assert [first] + rest == steps && [first] + (rest + [s]) == steps + [s];
      FirstStep(t, first, rest);
      FirstStep(t, first, rest + [s]);
      RunThen(t', rest, s);
      Joined(ok, Outcomes(t', rest), [Apply(Run(t', rest), s).Some?]);
    }
  }

  // Steps after which a report naming the operation is accepted.
  ghost predicate Lists(t: Tables, op: Id, steps: seq<Step>, u: Snapshot, now: int)
    requires Inv(t)
  {
    ClearFree(steps) && Apply(Run(t, steps), Update(u, now)).Some? && Named(u.queue, op)
  }

  // Some item of a report names the operation.
  predicate Named(items: seq<Item>, op: Id) {
    exists i :: 0 <= i < |items| && items[i].op == op
  }

  lemma {:induction false} MissedAtEnd(b: Tables, op: Id, steps: seq<Step>, u: Snapshot, now: int)
    requires Inv(b) && op in b.ops && b.ops[op].payload.None? && Named(u.queue, op)
    ensures Apply(Run(b, steps), Update(u, now)).None?
  {
    var end := Run(b, steps);
    NeverRestored(b, steps, op);
    var i :| 0 <= i < |u.queue| && u.queue[i].op == op;
    if !end.purged { PayloadMissed(end, u, now, i); }
  }

  lemma {:induction false} LastDiffers(x: seq<bool>, y: seq<bool>, a: bool, b: bool)
    requires |x| == |y| && a != b
    ensures x + [a] != y + [b]
  {
    assert (x + [a])[|x|] == a && (y + [b])[|x|] == b;
  }

  // Such steps are told apart from the same steps without the payload.
  lemma {:induction false} Distinguished(t: Tables, b: Tables, op: Id, steps: seq<Step>, u: Snapshot, now: int)
    requires Inv(t) && Inv(b) && op in b.ops && b.ops[op].payload.None? && Lists(t, op, steps, u, now)
    ensures Outcomes(t, steps + [Update(u, now)]) != Outcomes(b, steps + [Update(u, now)])
    ensures ClearFree(steps + [Update(u, now)])
  {
    var last := Update(u, now);
    RunThen(t, steps, last);
    RunThen(b, steps, last);
    MissedAtEnd(b, op, steps, u, now);
    LastDiffers(Outcomes(t, steps), Outcomes(b, steps), Apply(Run(t, steps), last).Some?, Apply(Run(b, steps), last).Some?);
  }

  // ----- such steps exist for every live orphan -----

  // A live orphan that still has its payload; every request is past its deadline by `now`.
  predicate Waiting(t: Tables, op: Id, now: int) {
    && LiveOrphan(t, op) && t.ops[op].payload.Some?
    && (forall x :: x in t.requests ==> t.requests[x].expires <= now)
  }

  ghost predicate Listable(t: Tables, op: Id, now: int)
    requires Inv(t)
  {
    exists steps, u :: Lists(t, op, steps, u, now)
  }

  // One more step in front.
  lemma {:induction false} StepBefore(t: Tables, s: Step, op: Id, now: int)
    requires Inv(t) && !s.ClearPayload? && Inv(After(t, s)) && Listable(After(t, s), op, now)
    ensures Listable(t, op, now)
  {
    var steps, u :| Lists(After(t, s), op, steps, u, now);
    FirstStep(t, s, steps);
    assert ClearFree([s] + steps);
    assert Lists(t, op, [s] + steps, u, now);
  }

  // The last step.
  lemma {:induction false} ReportNow(t: Tables, op: Id, u: Snapshot, now: int)
    requires Inv(t) && !t.purged && |u.queue| <= QUEUE_LIMIT && SessionUpdate(t, u, now).Some?
    requires Named(u.queue, op)
    ensures Listable(t, op, now)
  {
    OneStep(t, Content(0));
    assert ClearFree([]) && Lists(t, op, [], u, now);
  }

  // Requests of this session have deadlines; some moment is after all of them.
  lemma {:induction false} AfterDeadlines(requests: map<Id, Request>, ids: set<Id>) returns (now: int)
    requires ids <= requests.Keys
    ensures forall x :: x in ids ==> requests[x].expires <= now
    decreases |ids|
  {
    if ids == {} {
      now := 0;
    } else {
      var x :| x in ids;
      var rest := AfterDeadlines(requests, ids - {x});
      now := if requests[x].expires < rest then rest else requests[x].expires;
    }
  }

  // ----- step one: no control is left open -----

  function OpenControls(ops: map<Id, Op>): set<Id> {
    set o | o in ops && Open(ops[o].state) && !ops[o].kind.Queue?
  }

  // Rejecting an open control makes nothing stuck.
  lemma {:induction false} RejectControl(t: Tables, op: Id, now: int, c: Id)
    requires Inv(t) && Waiting(t, op, now) && c in OpenControls(t.ops)
    ensures var t' := After(t, Fail(c, now));
      Inv(t') && Waiting(t', op, now) && OpenControls(t'.ops) == OpenControls(t.ops) - {c}
  {
    var t' := DoFail(t, c, now);
    AfterKeeps(t, Fail(c, now));
    FailParts(t, c, now);
    assert After(t, Fail(c, now)) == t';
    forall i | 0 <= i < |t.queue|
      ensures !StuckRow(t'.ops, t'.queue[i])
    {
      assert RowOk(t.ops, t.drawn, t.turns.Keys, t.queue[i]);
      assert !StuckRow(t.ops, t.queue[i]);
    }
    RejectExpires(t, c, now);
  }

  lemma {:induction false} RejectExpires(t: Tables, c: Id, now: int)
    requires c in t.ops && forall x :: x in t.requests ==> t.requests[x].expires <= now
    ensures var r := DoFail(t, c, now).requests; forall x :: x in r ==> r[x].expires <= now
  {
  }

  lemma {:induction false} FromControls(t: Tables, op: Id, now: int)
    requires Inv(t) && Waiting(t, op, now)
    ensures Listable(t, op, now)
    decreases |OpenControls(t.ops)|
  {
    if OpenControls(t.ops) == {} {
      FromRequests(t, op, now);
    } else {
      var c :| c in OpenControls(t.ops);
      RejectControl(t, op, now, c);
      FromControls(After(t, Fail(c, now)), op, now);
      StepBefore(t, Fail(c, now), op, now);
    }
  }

  // ----- step two: no request is left pending -----

  lemma {:induction false} ExpireOne(t: Tables, op: Id, now: int, x: Id)
    requires Inv(t) && Waiting(t, op, now) && OpenControls(t.ops) == {} && x in PendingIds(t.requests)
    ensures var t' := After(t, ExpireRequest(x, now));
      && Inv(t') && Waiting(t', op, now) && OpenControls(t'.ops) == {} && PendingIds(t'.requests) == PendingIds(t.requests) - {x}
  {
    var t' := After(t, ExpireRequest(x, now));
    AfterKeeps(t, ExpireRequest(x, now));
    assert t'.ops == t.ops && t'.queue == t.queue && t'.purged == t.purged;
    NotStuck(t, t');
  }

  lemma {:induction false} NotStuck(t: Tables, t': Tables)
    requires !Stuck(t) && t'.queue == t.queue && t'.ops == t.ops
    ensures !Stuck(t')
  {
    forall i | 0 <= i < |t'.queue|
      ensures !StuckRow(t'.ops, t'.queue[i])
    {
      assert !StuckRow(t.ops, t.queue[i]);
    }
  }

  lemma {:induction false} FromRequests(t: Tables, op: Id, now: int)
    requires Inv(t) && Waiting(t, op, now) && OpenControls(t.ops) == {}
    ensures Listable(t, op, now)
    decreases |PendingIds(t.requests)|
  {
    if PendingIds(t.requests) == {} {
      FromQuiet(t, op, now);
    } else {
      var x :| x in PendingIds(t.requests);
      ExpireOne(t, op, now, x);
      FromRequests(After(t, ExpireRequest(x, now)), op, now);
      StepBefore(t, ExpireRequest(x, now), op, now);
    }
  }

  // A waiting orphan in a session with nothing else under way.
  predicate Quiet(t: Tables, op: Id) {
    LiveOrphan(t, op) && t.ops[op].payload.Some? && PendingIds(t.requests) == {}
  }

  // ----- reports that are accepted -----

  // What the queue holds, as a report of it.
  function Held(rows: seq<Row>): seq<Item> {
    Items(rows[Spent(rows)..])
  }

  // An unconsumed row whose operation may still be named.
  predicate Nameable(ops: map<Id, Op>, r: Row) {
    ActiveRow(r) ==> Mirrors(ops, ToItem(r))
  }

  predicate AllNameable(ops: map<Id, Op>, rows: seq<Row>) {
    forall i :: 0 <= i < |rows| ==> Nameable(ops, rows[i])
  }

  lemma {:induction false} NothingStuck(t: Tables)
    requires Inv(t) && !Stuck(t)
    ensures AllNameable(t.ops, t.queue)
  {
    forall i | 0 <= i < |t.queue|
      ensures Nameable(t.ops, t.queue[i])
    {
      assert RowOk(t.ops, t.drawn, t.turns.Keys, t.queue[i]);
      assert !StuckRow(t.ops, t.queue[i]);
    }
  }

  lemma {:induction false} HeldItem(ops: map<Id, Op>, rows: seq<Row>, i: nat)
    requires Split(rows, Spent(rows)) && AllNameable(ops, rows) && i < |rows| - Spent(rows)
    ensures Same(rows[Spent(rows)..][i], Held(rows)[i]) && Mirrors(ops, Held(rows)[i]) && Held(rows)[i].id == rows[Spent(rows) + i].id
    ensures rows[Spent(rows)..][i].(state := ItemMark(Held(rows)[i])) == rows[Spent(rows)..][i]
  {
    var k := Spent(rows);
    assert Held(rows)[i] == ToItem(rows[k + i]) && Nameable(ops, rows[k + i]) && ActiveRow(rows[k + i]);
  }

  lemma {:induction false} HeldAccepts(ops: map<Id, Op>, rows: seq<Row>)
    requires Tidy(rows, Spent(rows)) && AllNameable(ops, rows)
    ensures Accepts(ops, rows, Spent(rows), Held(rows))
  {
    var k, items := Spent(rows), Held(rows);
    forall i | 0 <= i < |items|
      ensures Same(rows[k..][i], items[i]) && Mirrors(ops, items[i]) && items[i].id == rows[k + i].id
    {
      HeldItem(ops, rows, i);
    }
    forall i, j | 0 <= i < j < |items|
      ensures items[i].id != items[j].id
    {
      assert rows[k + i].id != rows[k + j].id;
    }
    assert items[|rows| - k..] == [];
  }

  lemma {:induction false} HeldMarked(ops: map<Id, Op>, rows: seq<Row>)
    requires Split(rows, Spent(rows)) && AllNameable(ops, rows)
    ensures Mirrored(ops, rows, Spent(rows), Held(rows), |Held(rows)|) == rows
  {
    var k, items, q := Spent(rows), Held(rows), rows[Spent(rows)..];
    forall i | 0 <= i < |q|
      ensures Marked(ops, q, items, |items|)[i] == q[i]
    {
      HeldItem(ops, rows, i);
    }
    assert rows[..k] + q == rows;
  }

  // Reporting what the queue holds is accepted and changes nothing.
  lemma {:induction false} HeldAccepted(ops: map<Id, Op>, rows: seq<Row>)
    requires Tidy(rows, Spent(rows)) && AllNameable(ops, rows)
    ensures QueueMirror(ops, rows, Held(rows)) == Some(rows)
  {
    HeldAccepts(ops, rows);
    HeldMarked(ops, rows);
    MirrorExact(ops, rows, Spent(rows), Held(rows));
  }

  function FreshId(rows: seq<Row>): (id: Id)
    ensures forall i :: 0 <= i < |rows| ==> rows[i].id < id
  {
    if rows == [] then 0
    else
      var rest := FreshId(rows[1..]);
      if rows[0].id < rest then rest else rows[0].id + 1
  }

  // What the queue holds, and the orphan's item.
  function OrphanReport(ops: map<Id, Op>, rows: seq<Row>, op: Id): seq<Item>
    requires op in ops && ops[op].payload.Some?
  {
    Held(rows) + [Item(FreshId(rows), op, ops[op].payload.value.text, 0, false)]
  }

  lemma {:induction false} OrphanDistinct(ops: map<Id, Op>, rows: seq<Row>, op: Id)
    requires Tidy(rows, Spent(rows)) && AllNameable(ops, rows) && op in ops && ops[op].payload.Some?
    ensures DistinctItems(OrphanReport(ops, rows, op))
  {
    var k, items := Spent(rows), OrphanReport(ops, rows, op);
    forall i, j | 0 <= i < j < |items|
      ensures items[i].id != items[j].id
    {
      HeldItem(ops, rows, i);
      if j < |items| - 1 { HeldItem(ops, rows, j); }
    }
  }

  lemma {:induction false} OrphanIsNew(ops: map<Id, Op>, rows: seq<Row>, op: Id)
    requires op in ops && ops[op].payload.Some? && !OpQueued(rows, op)
    ensures var items := OrphanReport(ops, rows, op); Fresh(rows, items[|items| - 1])
  {
    forall i | 0 <= i < |Ids(rows)|
      ensures Ids(rows)[i] < FreshId(rows)
    {
      assert Ids(rows)[i] == rows[i].id;
    }
  }

  lemma {:induction false} OneMore(ops: map<Id, Op>, rows: seq<Row>, k: nat, items: seq<Item>)
    requires k <= |rows| && |items| == |rows| - k + 1 && DistinctItems(items)
    requires forall i :: 0 <= i < |rows| - k ==> Same(rows[k..][i], items[i]) && Mirrors(ops, items[i])
    requires Fresh(rows, items[|rows| - k]) && Mirrors(ops, items[|rows| - k])
    ensures Accepts(ops, rows, k, items)
  {
  }

  // The report that also lists the orphan's item is accepted while its payload is there.
  lemma {:induction false} OrphanAccepted(ops: map<Id, Op>, rows: seq<Row>, op: Id)
    requires Tidy(rows, Spent(rows)) && AllNameable(ops, rows) && !OpQueued(rows, op)
    requires op in ops && ops[op].kind.Queue? && !ops[op].state.Rejected? && ops[op].payload.Some?
    ensures QueueMirror(ops, rows, OrphanReport(ops, rows, op)).Some?
  {
    var k, items := Spent(rows), OrphanReport(ops, rows, op);
    OrphanDistinct(ops, rows, op);
    OrphanIsNew(ops, rows, op);
    forall i | 0 <= i < |rows| - k
      ensures Same(rows[k..][i], items[i]) && Mirrors(ops, items[i])
    {
      HeldItem(ops, rows, i);
      assert items[i] == Held(rows)[i];
    }
    OneMore(ops, rows, k, items);
    MirrorExact(ops, rows, k, items);
  }

  // ----- step three: the report, now or after the head of the queue was consumed -----

  // With no request pending, a snapshot in order goes through.
  lemma {:induction false} SnapshotPasses(t: Tables, u: Snapshot, now: int)
    requires Inv(t) && PendingIds(t.requests) == {} && TurnAllowed(t, u) && CapabilitiesAllowed(t, u)
    requires QueueMirror(t.ops, BeforeMirror(t, u), u.queue).Some?
    ensures SessionUpdate(t, u, now).Some?
    ensures var t' := SessionUpdate(t, u, now).value;
      t'.requests == t.requests && t'.queue == QueueMirror(t.ops, BeforeMirror(t, u), u.queue).value
  {
    assert Withdrawing(t.requests, now) == t.requests by {
      forall x | x in t.requests ensures !LivePending(t.requests[x], now) { assert x !in PendingIds(t.requests); }
    }
  }

  // The same state reported again, or another one, with the queue as it is.
  function Unchanged(t: Tables, state: RunState): Snapshot {
    Snapshot(t.turn, state, t.capabilities, t.capabilityRevision, Held(t.queue))
  }

  lemma {:induction false} UnchangedPasses(t: Tables, state: RunState, now: int)
    requires Inv(t) && !t.purged && !Stuck(t) && PendingIds(t.requests) == {} && TurnAllowed(t, Unchanged(t, state))
    ensures var u := Unchanged(t, state);
      Apply(t, Update(u, now)) == SessionUpdate(t, u, now) && SessionUpdate(t, u, now).Some?
      && SessionUpdate(t, u, now).value.requests == t.requests && SessionUpdate(t, u, now).value.queue == t.queue
  {
    var u := Unchanged(t, state);
    NothingStuck(t);
    HeldAccepted(t.ops, t.queue);
    HeldShort(t);
    SnapshotPasses(t, u, now);
  }

  lemma {:induction false} StateChanges(t: Tables, op: Id, state: RunState, now: int)
    requires Inv(t) && Quiet(t, op) && TurnAllowed(t, Unchanged(t, state))
    ensures var t' := After(t, Update(Unchanged(t, state), now));
      && Inv(t') && Quiet(t', op) && t'.state == state && t'.turn == t.turn && t'.queue == t.queue && t'.ops == t.ops
      && t'.managed == t.managed && t'.requests == t.requests
  {
    var u := Unchanged(t, state);
    UnchangedPasses(t, state, now);
    UpdateParts(t, u, now);
    AfterKeeps(t, Update(u, now));
    NotStuck(t, After(t, Update(u, now)));
  }

  lemma {:induction false} HeldShort(t: Tables)
    requires QueueOk(t)
    ensures |Held(t.queue)| <= QUEUE_LIMIT
  {
  }

  lemma {:induction false} FromQuiet(t: Tables, op: Id, now: int)
    requires Inv(t) && Quiet(t, op) && OpenControls(t.ops) == {}
    ensures Listable(t, op, now)
  {
    if Spent(t.queue) == |t.queue| {
      FromEmpty(t, op, now);
    } else if t.state.Closed? {
      FromClosed(t, op, now);
    } else {
      var s := Update(Unchanged(t, Closed), now);
      StateChanges(t, op, Closed, now);
      FromClosed(After(t, s), op, now);
      StepBefore(t, s, op, now);
    }
  }

  // Nothing waits before the orphan: its item is reported at once.
  lemma {:induction false} FromEmpty(t: Tables, op: Id, now: int)
    requires Inv(t) && Quiet(t, op) && Spent(t.queue) == |t.queue|
    ensures Listable(t, op, now)
  {
    var u := Snapshot(t.turn, t.state, t.capabilities, t.capabilityRevision, OrphanReport(t.ops, t.queue, op));
    NothingStuck(t);
    OrphanAccepted(t.ops, t.queue, op);
    SnapshotPasses(t, u, now);
    assert u.queue[|u.queue| - 1].op == op;
    ReportNow(t, op, u, now);
  }

  lemma {:induction false} FreshOp(ids: set<Id>) returns (o: Id)
    ensures forall i :: i in ids ==> i < o
    decreases |ids|
  {
    if ids == {} {
      o := 0;
    } else {
      var i :| i in ids;
      var rest := FreshOp(ids - {i});
      o := if i < rest then rest else i + 1;
      assert forall j :: j in ids ==> j == i || j in ids - {i};
    }
  }

  lemma {:induction false} NotBusy(ops: map<Id, Op>)
    ensures OpenControls(ops) == {} ==> !Busy(ops)
  {
    assert forall o :: o in ops && Open(ops[o].state) && !ops[o].kind.Queue? ==> o in OpenControls(ops);
  }

  // A closed session is asked to resume,
  lemma {:induction false} FromClosed(t: Tables, op: Id, now: int)
    requires Inv(t) && Quiet(t, op) && OpenControls(t.ops) == {} && t.state.Closed? && Spent(t.queue) < |t.queue|
    ensures Listable(t, op, now)
  {
    var o := FreshOp(t.ops.Keys);
    var s := Admit(o, Resume, Payload(None, 0, t.turn), None, now);
    NotBusy(t.ops);
    assert t.managed && Admissible(t, s);
    var t1 := DoAdmit(t, s);
    AfterKeeps(t, s);
    ResumeAdmitted(t, op, s);
    FromResuming(t1, op, o, now);
    StepBefore(t, s, op, now);
  }

  lemma {:induction false} ResumeAdmitted(t: Tables, op: Id, s: Step)
    requires Inv(t) && Quiet(t, op) && s.Admit? && s.kind.Resume? && Admissible(t, s)
    ensures Quiet(DoAdmit(t, s), op)
  {
    var t1 := DoAdmit(t, s);
    forall i | 0 <= i < |t.queue|
      ensures !StuckRow(t1.ops, t1.queue[i])
    {
      assert RowOk(t.ops, t.drawn, t.turns.Keys, t.queue[i]);
      assert !StuckRow(t.ops, t.queue[i]);
    }
  }

  // resumes as completed,
  lemma {:induction false} FromResuming(t: Tables, op: Id, o: Id, now: int)
    requires Inv(t) && Quiet(t, op) && t.state.Closed? && Spent(t.queue) < |t.queue|
    requires o in t.ops && t.ops[o] == Op(Resume, Accepted, Some(Payload(None, 0, t.turn)), None)
    ensures Listable(t, op, now)
  {
    var s := Update(Unchanged(t, Completed), now);
    assert ResumeAuthorised(t.ops, t.turn);
    StateChanges(t, op, Completed, now);
    FromCompleted(After(t, s), op, now);
    StepBefore(t, s, op, now);
  }

  // the head of its queue is confirmed,
  lemma {:induction false} FromCompleted(t: Tables, op: Id, now: int)
    requires Inv(t) && Quiet(t, op) && t.state.Completed? && Spent(t.queue) < |t.queue|
    ensures Listable(t, op, now)
  {
    var h := t.queue[Spent(t.queue)];
    assert RowOk(t.ops, t.drawn, t.turns.Keys, h) && ActiveRow(h);
    assert !StuckRow(t.ops, t.queue[Spent(t.queue)]);
    if t.ops[h.op].state.Confirmed? {
      FromReady(t, op, now);
    } else {
      HeadConfirmed(t, op, now);
      FromReady(After(t, Confirm(h.op, Some(h.id), now)), op, now);
      StepBefore(t, Confirm(h.op, Some(h.id), now), op, now);
    }
  }

  lemma {:induction false} HeadReceipt(t: Tables, now: int)
    requires Inv(t) && !t.purged && Spent(t.queue) < |t.queue|
    requires t.queue[Spent(t.queue)].op in t.ops && Open(t.ops[t.queue[Spent(t.queue)].op].state)
    ensures var h := t.queue[Spent(t.queue)]; Apply(t, Confirm(h.op, Some(h.id), now)) == Some(SetOp(t, h.op, Confirmed))
  {
    var k := Spent(t.queue);
    var h := t.queue[k];
    assert RowOk(t.ops, t.drawn, t.turns.Keys, h) && ActiveRow(h);
    ActiveIsTail(t.queue, k);
    assert ItemIds(Items(ActiveRows(t.queue)))[0] == h.id;
  }

  lemma {:induction false} ConfirmedQuiet(t: Tables, op: Id, o: Id)
    requires Quiet(t, op) && o in t.ops && Open(t.ops[o].state)
    ensures Quiet(SetOp(t, o, Confirmed), op)
  {
    var t1 := SetOp(t, o, Confirmed);
    forall i | 0 <= i < |t.queue|
      ensures !StuckRow(t1.ops, t1.queue[i])
    {
      assert !StuckRow(t.ops, t.queue[i]);
    }
  }

  lemma {:induction false} HeadConfirmed(t: Tables, op: Id, now: int)
    requires Inv(t) && Quiet(t, op) && t.state.Completed? && Spent(t.queue) < |t.queue|
    requires t.queue[Spent(t.queue)].op in t.ops && Open(t.ops[t.queue[Spent(t.queue)].op].state)
    ensures var h := t.queue[Spent(t.queue)];
      var t1 := After(t, Confirm(h.op, Some(h.id), now));
      Inv(t1) && Quiet(t1, op) && t1.state.Completed? && t1.queue == t.queue && h.op in t1.ops && t1.ops[h.op].state.Confirmed?
  {
    var h := t.queue[Spent(t.queue)];
    HeadReceipt(t, now);
    AfterKeeps(t, Confirm(h.op, Some(h.id), now));
    ConfirmedQuiet(t, op, h.op);
  }

  // and its turn starts: the same snapshot lists the orphan's item behind what is left.
  lemma {:induction false} FromReady(t: Tables, op: Id, now: int)
    requires Inv(t) && Quiet(t, op) && t.state.Completed? && Spent(t.queue) < |t.queue|
    requires t.queue[Spent(t.queue)].op in t.ops && t.ops[t.queue[Spent(t.queue)].op].state.Confirmed?
    ensures Listable(t, op, now)
  {
    var k := Spent(t.queue);
    var h := t.queue[k];
    assert RowOk(t.ops, t.drawn, t.turns.Keys, h) && ActiveRow(h);
    var turn := h.nextTurn.value;
    var rows := Consume(t.queue, turn);
    var u := Snapshot(turn, Running, t.capabilities, t.capabilityRevision, OrphanReport(t.ops, rows, op));
    HeadMayStart(t, u);
    ConsumesHead(t, turn);
    SpentIs(rows, k + 1);
    ConsumedNameable(t, rows, op);
    OrphanAccepted(t.ops, rows, op);
    SnapshotPasses(t, u, now);
    assert u.queue[|u.queue| - 1].op == op;
    ReportNow(t, op, u, now);
  }

  lemma {:induction false} HeadMayStart(t: Tables, u: Snapshot)
    requires Inv(t) && t.state.Completed? && u.state.Running? && Spent(t.queue) < |t.queue|
    requires RowOk(t.ops, t.drawn, t.turns.Keys, t.queue[Spent(t.queue)]) && ActiveRow(t.queue[Spent(t.queue)])
    requires t.ops[t.queue[Spent(t.queue)].op].state.Confirmed? && t.queue[Spent(t.queue)].nextTurn == Some(u.turn)
    ensures u.turn != t.turn && u.turn in t.drawn && t.drawn[u.turn] == t.queue[Spent(t.queue)].op && TurnAllowed(t, u) && HeadIs(t.queue, u.turn)
  {
    var h := t.queue[Spent(t.queue)];
    assert Reserves(t.ops[h.op], u.turn);
    TheReservation(t, u.turn);
    ActiveIsTail(t.queue, Spent(t.queue));
  }

  lemma {:induction false} ConsumedNameable(t: Tables, rows: seq<Row>, op: Id)
    requires Inv(t) && !Stuck(t) && !OpQueued(t.queue, op) && Spent(t.queue) < |t.queue|
    requires rows == t.queue[Spent(t.queue) := t.queue[Spent(t.queue)].(state := Consumed)]
    ensures AllNameable(t.ops, rows) && !OpQueued(rows, op)
  {
    NothingStuck(t);
    forall i | 0 <= i < |rows|
      ensures Nameable(t.ops, rows[i]) && rows[i].op != op
    {
      assert Nameable(t.ops, t.queue[i]) && t.queue[i] in t.queue;
    }
  }

  // ----- exactly -----

  // Whatever follows, with further clearing at any time, the same transactions go through
  // with and without this payload.
  ghost predicate NeverNoticed(t: Tables, op: Id)
    requires Inv(t)
  {
    AfterKeeps(t, ClearPayload(op));
    forall steps :: Outcomes(t, steps) == Outcomes(After(t, ClearPayload(op)), steps)
  }

  // The same between the machine that never clears and the one that cleared this payload.
  ghost predicate NeverMissed(t: Tables, op: Id)
    requires Inv(t)
  {
    AfterKeeps(t, ClearPayload(op));
    forall steps :: ClearFree(steps) ==> KeepRun(t, steps).0 == ClearRun(After(t, ClearPayload(op)), steps).0
  }

  lemma {:induction false} OrphanListed(t: Tables, op: Id) returns (steps: seq<Step>, u: Snapshot, now: int)
    requires Inv(t) && LiveOrphan(t, op) && t.ops[op].payload.Some?
    ensures Lists(t, op, steps, u, now)
  {
    now := AfterDeadlines(t.requests, t.requests.Keys);
    FromControls(t, op, now);
    steps, u :| Lists(t, op, steps, u, now);
  }

  lemma {:induction false} OrphanNoticed(t: Tables, op: Id) returns (steps: seq<Step>)
    requires Inv(t) && op in t.ops && Clearable(t, op) && LiveOrphan(t, op)
    ensures Inv(After(t, ClearPayload(op))) && ClearFree(steps) && Outcomes(t, steps) != Outcomes(After(t, ClearPayload(op)), steps)
  {
    AfterKeeps(t, ClearPayload(op));
    Clearing(t, op);
    var pre, u, now := OrphanListed(t, op);
    Distinguished(t, After(t, ClearPayload(op)), op, pre, u, now);
    steps := pre + [Update(u, now)];
  }

  // The exact condition: clearing a payload can be noticed by some continuation if and only
  // if it is that of a live orphan, a confirmed enqueue without a row in a session that is
  // neither purged nor stuck. Whether there is room in the queue makes no difference.
  lemma {:induction false} NoticedExactly(t: Tables, op: Id)
    requires Inv(t) && op in t.ops && Clearable(t, op)
    ensures NeverNoticed(t, op) <==> !LiveOrphan(t, op)
    ensures NeverMissed(t, op) <==> !LiveOrphan(t, op)
  {
    var b := After(t, ClearPayload(op));
    AfterKeeps(t, ClearPayload(op));
    if LiveOrphan(t, op) {
      var steps := OrphanNoticed(t, op);
      ClearFreeSame(t, steps);
    } else {
      ClearStep(t, t, op);
      forall steps
        ensures Outcomes(t, steps) == Outcomes(b, steps)
        ensures ClearFree(steps) ==> KeepRun(t, steps).0 == ClearRun(b, steps).0
      {
        BothRun(t, b, steps);
        if ClearFree(steps) { ClearFreeSame(t, steps); }
      }
    }
  }
}
