// Runs from a newly created session into the situations the theorems speak of, step by
// step: an orphaned enqueue, a stuck queue, and a pending request of an earlier turn.
module SessionWitnesses {
  import opened Basics
  import opened SessionTables
  import opened SessionMirror
  import opened SessionSafety
  import opened SessionTheorems
  import opened PayloadGc
  import opened PayloadNotice
  import opened StaleRequests

  // ----- the beginning of every run here -----

  const SPAWN := Op(Create, Confirmed, Some(Payload(None, 0, 1)), None)

  function Begun(): Tables {
    Created(1, 10, 0, 1, Payload(None, 0, 1))
  }

  // A session of one turn, or of two.
  function Running(ops: map<Id, Op>, drawn: map<Id, Id>, queue: seq<Row>, requests: map<Id, Request>, last: nat): Tables {
    Tables(1, RunState.Running, 0, 1, true, false, map[1 := RunState.Running], drawn, ops, queue, requests, last, 1)
  }

  function Over(ops: map<Id, Op>, drawn: map<Id, Id>, requests: map<Id, Request>, last: nat): Tables {
    Tables(1, Completed, 0, 1, true, false, map[1 := Completed], drawn, ops, [], requests, last, 1)
  }

  function Second(ops: map<Id, Op>, drawn: map<Id, Id>, requests: map<Id, Request>, last: nat): Tables {
    Tables(2, RunState.Running, 0, 1, true, false, map[1 := Completed, 2 := RunState.Running], drawn, ops, [], requests, last, 1)
  }

  function Report(turn: Id, state: RunState, queue: seq<Item>): Snapshot {
    Snapshot(turn, state, 0, 1, queue)
  }

  // From the i-th step of a run to the next.
  lemma {:induction false} Further(t: Tables, steps: seq<Step>, i: nat, t': Tables)
    requires Inv(t) && i < |steps| && After(t, steps[i]) == t'
    ensures Inv(t') && Run(t, steps[i..]) == Run(t', steps[i + 1..])
  {
    AfterKeeps(t, steps[i]);
    assert steps[i..][0] == steps[i] && steps[i..][1..] == steps[i + 1..];
  }

  lemma {:induction false} EmptyMirror(ops: map<Id, Op>)
    ensures QueueMirror(ops, [], []) == Some([])
  {
    var none: seq<Row> := [];
    assert ItemIds([]) == [] && MirrorItems(ops, none, [], 0) == Some(none) && ActiveRows(none) == [];
  }

  // An update of the current turn with an unchanged, empty queue.
  lemma {:induction false} EmptyUpdate(t: Tables, state: RunState, now: int, t': Tables)
    requires Inv(t) && !t.purged && t.queue == [] && ValidTransition(t.state, state) && !state.Closed?
    requires forall x :: x in t.requests && t.requests[x].state.Pending? ==> t.requests[x].turn == t.turn && t.requests[x].expires <= now
    requires t' == t.(state := state, turns := t.turns[t.turn := state], last := t'.last)
    requires t'.last == t.last + 1 + if !Active(state) || state.Cancelling? then |PendingIds(t.requests)| else 0
    ensures After(t, Update(Snapshot(t.turn, state, t.capabilities, t.capabilityRevision, []), now)) == t'
  {
    assert Withdrawing(t.requests, now) == t.requests;
    assert ActiveRows(t.queue) == [] && Items(ActiveRows(t.queue)) == [];
    EmptyMirror(t.ops);
  }

  // The create command is confirmed and the first turn runs.
  function Started(): Tables {
    Running(map[10 := SPAWN], map[1 := 10], [], map[], 1)
  }

  function Opening(): seq<Step> {
    [Confirm(10, None, 0), Update(Report(1, RunState.Running, []), 0)]
  }

  function Spawned(): Tables {
    Begun().(ops := map[10 := SPAWN])
  }

  lemma {:induction false} SpawnStep()
    ensures Inv(Begun()) && After(Begun(), Opening()[0]) == Spawned()
  {
    CreatedOk(1, 10, 0, 1, Payload(None, 0, 1));
  }

  lemma {:induction false} StartStep()
    requires Inv(Spawned())
    ensures After(Spawned(), Opening()[1]) == Started()
  {
    EmptyUpdate(Spawned(), RunState.Running, 0, Started());
  }

  lemma {:induction false} Opens(rest: seq<Step>)
    ensures Inv(Begun()) && Inv(Started()) && Run(Begun(), Opening() + rest) == Run(Started(), rest)
  {
    var steps := Opening() + rest;
    SpawnStep();
    Further(Begun(), steps, 0, Spawned());
    StartStep();
    Further(Spawned(), steps, 1, Started());
    assert steps[0..] == steps && steps[2..] == rest;
  }

  // ----- two enqueues -----

  const FIRST := Op(Queue, Accepted, Some(Payload(Some(2), 5, 1)), None)
  const SECOND := Op(Queue, Accepted, Some(Payload(Some(3), 6, 1)), None)

  function OneQueued(): Tables {
    Running(map[10 := SPAWN, 11 := FIRST], map[1 := 10, 2 := 11], [], map[], 1)
  }

  function OneListed(): Tables {
    Running(map[10 := SPAWN, 11 := FIRST], map[1 := 10, 2 := 11], [Row(21, 11, Some(2), 5, 0, Queued)], map[], 3)
  }

  function Enqueues(): seq<Step> {
    [Admit(11, Queue, Payload(Some(2), 5, 1), None, 0), Update(Report(1, RunState.Running, [Item(21, 11, 5, 0, false)]), 0)]
  }

  lemma {:induction false} FirstAdmitted()
    ensures After(Started(), Enqueues()[0]) == OneQueued()
  {
    assert Admissible(Started(), Enqueues()[0]);
  }

  lemma {:induction false} FirstListed()
    ensures After(OneQueued(), Enqueues()[1]) == OneListed()
  {
    var t, u := OneQueued(), Report(1, RunState.Running, [Item(21, 11, 5, 0, false)]);
    var item := u.queue[0];
    var row := Row(21, 11, Some(2), 5, 0, Queued);
    var none: seq<Row> := [];
    assert MirrorItems(t.ops, none, u.queue, 0) == Some(none);
    assert ItemIds(u.queue[..0]) == [];
    assert Find(none, 21) == 0 && !OpQueued(none, 11);
    assert none + [row] == [row];
    assert MirrorOne(t.ops, none, item) == Some([row]);
    assert MirrorItems(t.ops, [], u.queue, 1) == Some([row]);
    assert ActiveRows([row]) == [row] + ActiveRows([row][1..]);
    assert Ids(ActiveRows([row])) == [21] && ItemIds(u.queue) == [21];
    assert QueueMirror(t.ops, [], u.queue) == Some([row]);
    assert Items(ActiveRows(t.queue)) == [];
  }

  lemma {:induction false} Lists(rest: seq<Step>)
    requires Inv(Started())
    ensures Inv(OneListed()) && Run(Started(), Enqueues() + rest) == Run(OneListed(), rest)
  {
    var steps := Enqueues() + rest;
    FirstAdmitted();
    Further(Started(), steps, 0, OneQueued());
    FirstListed();
    Further(OneQueued(), steps, 1, OneListed());
    assert steps[0..] == steps && steps[2..] == rest;
  }

  // The first enqueue is admitted and its item reported, before any receipt.
  lemma {:induction false} Listing(rest: seq<Step>)
    ensures Inv(OneListed()) && Run(Begun(), Opening() + Enqueues() + rest) == Run(OneListed(), rest)
  {
    Opens(Enqueues() + rest);
    Lists(rest);
    assert Opening() + Enqueues() + rest == Opening() + (Enqueues() + rest);
  }

  // ----- a stuck queue -----

  function Refused(): Tables {
    OneListed().(ops := map[10 := SPAWN, 11 := FIRST.(state := OpState.Rejected)])
  }

  lemma {:induction false} FirstRejected()
    ensures After(OneListed(), Fail(11, 0)) == Refused() && Stuck(Refused())
  {
    assert DoFail(OneListed(), 11, 0) == Refused();
    assert StuckRow(Refused().ops, Refused().queue[0]);
  }

  // Then the operation is rejected: its item can neither be listed nor left out.
  lemma {:induction false} StuckReached()
    ensures Inv(Begun()) && Stuck(Run(Begun(), Opening() + Enqueues() + [Fail(11, 0)]))
  {
    var steps := [Fail(11, 0)];
    Opens([]);
    Listing(steps);
    FirstRejected();
    Further(OneListed(), steps, 0, Refused());
    assert steps[0..] == steps && steps[1..] == [];
  }

  // ----- an orphan -----

  function Orphaned(): Tables {
    Running(map[10 := SPAWN, 11 := FIRST, 12 := SECOND.(state := Confirmed)], map[1 := 10, 2 := 11, 3 := 12],
            [Row(21, 11, Some(2), 5, 0, Queued)], map[], 3)
  }

  // The receipt of the second enqueue names the item of the first.
  function Dishonesty(): seq<Step> {
    [Admit(12, Queue, Payload(Some(3), 6, 1), None, 0), Confirm(12, Some(21), 0)]
  }

  function TwoQueued(): Tables {
    OneListed().(ops := map[10 := SPAWN, 11 := FIRST, 12 := SECOND], drawn := map[1 := 10, 2 := 11, 3 := 12])
  }

  lemma {:induction false} SecondAdmitted()
    ensures After(OneListed(), Dishonesty()[0]) == TwoQueued()
  {
    var t := OneListed();
    ActiveIsTail(t.queue, 0);
    assert t.queue[0..] == t.queue;
    assert Admissible(t, Dishonesty()[0]);
  }

  lemma {:induction false} SecondConfirmed()
    ensures Listed(TwoQueued(), 21) && After(TwoQueued(), Dishonesty()[1]) == Orphaned()
  {
    var t := TwoQueued();
    ActiveIsTail(t.queue, 0);
    assert t.queue[0..] == t.queue;
    assert ItemIds(Items(ActiveRows(t.queue)))[0] == 21;
    assert Listed(t, 21);
  }

  lemma {:induction false} Receipts(rest: seq<Step>)
    requires Inv(OneListed())
    ensures Inv(TwoQueued()) && Inv(Orphaned()) && Run(OneListed(), Dishonesty() + rest) == Run(Orphaned(), rest)
  {
    var steps := Dishonesty() + rest;
    SecondAdmitted();
    Further(OneListed(), steps, 0, TwoQueued());
    SecondConfirmed();
    Further(TwoQueued(), steps, 1, Orphaned());
    assert steps[0..] == steps && steps[2..] == rest;
  }

  lemma {:induction false} Orphans(rest: seq<Step>)
    ensures Inv(Begun()) && Inv(TwoQueued()) && Inv(Orphaned())
    ensures Run(Begun(), Opening() + Enqueues() + (Dishonesty() + rest)) == Run(Orphaned(), rest)
  {
    Opens([]);
    Listing(Dishonesty() + rest);
    Receipts(rest);
  }

  lemma {:induction false} OrphanedLives()
    ensures LiveOrphan(Orphaned(), 12) && Clearable(Orphaned(), 12) && !Honest(TwoQueued(), Dishonesty()[1])
  {
    var t := Orphaned();
    assert !Stuck(t) by { assert !StuckRow(t.ops, t.queue[0]); }
    SecondConfirmed();
    assert !OpQueued(t.queue, 12);
  }

  // ----- what an orphan costs -----

  lemma {:induction false} KeepFirst(t: Tables, s: Step, rest: seq<Step>)
    requires Inv(t) && !s.ClearPayload?
    ensures Inv(After(t, s)) && KeepRun(t, [s] + rest).0 == [Apply(t, s).Some?] + KeepRun(After(t, s), rest).0
  {
    AfterKeeps(t, s);
    assert ([s] + rest)[0] == s && ([s] + rest)[1..] == rest;
  }

  // Both machines do the same up to the first clearing.
  lemma {:induction false} CommonPrefix(t: Tables, pre: seq<Step>, rest: seq<Step>)
    requires Inv(t) && ClearFree(pre)
    ensures KeepRun(t, pre + rest).0 == Outcomes(t, pre) + KeepRun(Run(t, pre), rest).0
    ensures ClearRun(t, pre + rest).0 == Outcomes(t, pre) + ClearRun(Run(t, pre), rest).0
    decreases |pre|
  {
    if pre == [] {
      assert pre + rest == rest;
      OneStep(t, Content(0));
      assert [] + KeepRun(t, rest).0 == KeepRun(t, rest).0 && [] + ClearRun(t, rest).0 == ClearRun(t, rest).0;
    } else {
      var s, tail := pre[0], pre[1..];
      var t', ok := After(t, s), [Apply(t, s).Some?];
      assert pre + rest == [s] + (tail + rest) && pre == [s] + tail;
      FirstStep(t, s, tail);
      FirstStep(t, s, tail + rest);
      KeepFirst(t, s, tail + rest);
      CommonPrefix(t', tail, rest);
      Joined(ok, Outcomes(t', tail), KeepRun(Run(t', tail), rest).0);
      Joined(ok, Outcomes(t', tail), ClearRun(Run(t', tail), rest).0);
    }
  }

  lemma {:induction false} StillDifferent(pre: seq<bool>, x: seq<bool>, y: seq<bool>)
    requires x != y
    ensures pre + x != pre + y
  {
    assert (pre + x)[|pre|..] == x && (pre + y)[|pre|..] == y;
  }

  lemma {:induction false} ClearedFirst(t: Tables, op: Id, rest: seq<Step>)
    requires Inv(t)
    ensures KeepRun(t, [ClearPayload(op)] + rest).0 == KeepRun(t, rest).0
    ensures Inv(After(t, ClearPayload(op))) && ClearRun(t, [ClearPayload(op)] + rest).0 == ClearRun(After(t, ClearPayload(op)), rest).0
  {
    var s := ClearPayload(op);
    AfterKeeps(t, s);
    assert ([s] + rest)[0] == s && ([s] + rest)[1..] == rest;
  }

  // Whatever run leads to a live orphan, it has a continuation that is accepted differently
  // with and without clearing.
  lemma {:induction false} OrphanBreaks(t: Tables, pre: seq<Step>, op: Id) returns (steps: seq<Step>)
    requires Inv(t) && ClearFree(pre) && op in Run(t, pre).ops && Clearable(Run(t, pre), op) && LiveOrphan(Run(t, pre), op)
    ensures KeepRun(t, steps).0 != ClearRun(t, steps).0
  {
    var end := Run(t, pre);
    var rest := OrphanNoticed(end, op);
    var more := [ClearPayload(op)] + rest;
    steps := pre + more;
    CommonPrefix(t, pre, more);
    ClearedFirst(end, op, rest);
    ClearFreeSame(end, rest);
    StillDifferent(Outcomes(t, pre), KeepRun(end, more).0, ClearRun(end, more).0);
  }

  function Misnaming(): seq<Step> {
    Opening() + Enqueues() + (Dishonesty() + [])
  }

  lemma {:induction false} MisnamingReaches()
    ensures Inv(Begun()) && Run(Begun(), Misnaming()) == Orphaned()
  {
    Orphans([]);
  }

  lemma {:induction false} NothingCleared()
    ensures ClearFree(Misnaming())
  {
    assert ClearFree(Opening()) && ClearFree(Enqueues()) && ClearFree(Dishonesty());
  }

  // Clearing is no refinement: a run from a new session that is accepted differently by the
  // machine that keeps payloads and the one that clears them.
  lemma {:induction false} DishonestReceipt() returns (steps: seq<Step>)
    ensures Inv(Begun()) && KeepRun(Begun(), steps).0 != ClearRun(Begun(), steps).0
  {
    MisnamingReaches();
    NothingCleared();
    OrphanedLives();
    steps := OrphanBreaks(Begun(), Misnaming(), 12);
  }

  // ----- a request that expired unswept -----

  const EXPIRING := Request(1, 1, Pending, None, 5)
  const SENT := Op(Send, Accepted, Some(Payload(Some(2), 5, 1)), None)

  // Asked, expired, and the turn over: the snapshot withdraws live requests only.
  function Expiring(): seq<Step> {
    [Ask(7, 1, 1, 0, 5, 0), Update(Report(1, Completed, []), 10),
     Admit(11, Send, Payload(Some(2), 5, 1), None, 10), Update(Report(2, RunState.Running, []), 10)]
  }

  function SecondTurn(): Tables {
    Second(map[10 := SPAWN, 11 := SENT], map[1 := 10, 2 := 11], map[7 := EXPIRING], 5)
  }

  function Asked(): Tables {
    Running(map[10 := SPAWN], map[1 := 10], [], map[7 := EXPIRING], 2)
  }

  function Unswept(): Tables {
    Over(map[10 := SPAWN], map[1 := 10], map[7 := EXPIRING], 4)
  }

  function Sent(): Tables {
    Over(map[10 := SPAWN, 11 := SENT], map[1 := 10, 2 := 11], map[7 := EXPIRING], 4)
  }

  lemma {:induction false} AskedStep()
    ensures After(Started(), Expiring()[0]) == Asked()
  {
  }

  lemma {:induction false} UnsweptStep()
    requires Inv(Asked())
    ensures After(Asked(), Expiring()[1]) == Unswept()
  {
    assert PendingIds(Asked().requests) == {7};
    EmptyUpdate(Asked(), Completed, 10, Unswept());
  }

  lemma {:induction false} SentStep()
    ensures After(Unswept(), Expiring()[2]) == Sent()
  {
    assert Admissible(Unswept(), Expiring()[2]);
  }

  lemma {:induction false} SecondStep()
    ensures After(Sent(), Expiring()[3]) == SecondTurn()
  {
    var t := Sent();
    var none: seq<Row> := [];
    assert Reserves(t.ops[11], 2) && !Reserves(t.ops[10], 2);
    assert Reservation(t.ops, 2) == Some(11);
    assert Consume(none, 2) == none && ActiveRows(none) == [] && Items(none) == [];
    EmptyMirror(t.ops);
  }

  lemma {:induction false} ExpiredReached()
    ensures Inv(Begun()) && Inv(SecondTurn()) && Run(Begun(), Opening() + Expiring()) == SecondTurn()
  {
    Opens(Expiring());
    AskedStep();
    Further(Started(), Expiring(), 0, Asked());
    UnsweptStep();
    Further(Asked(), Expiring(), 1, Unswept());
    SentStep();
    Further(Unswept(), Expiring(), 2, Sent());
    SecondStep();
    Further(Sent(), Expiring(), 3, SecondTurn());
    assert Expiring()[0..] == Expiring() && Expiring()[4..] == [];
  }

  // No snapshot that ends this turn goes through, though one is in order.
  lemma {:induction false} ExpiredBlocks(u: Snapshot, now: int)
    requires EndsTurn(u) && u.turn == 2
    ensures Inv(Begun())
    ensures var t := Run(Begun(), Opening() + Expiring());
      InOrder(t, Report(2, Completed, [])) && (InOrder(t, u) ==> Apply(t, Update(u, now)).None?)
  {
    ExpiredReached();
    var t := SecondTurn();
    EmptyMirror(t.ops);
    assert StaleOne(t.requests[7], t.turn);
    if InOrder(t, u) { RefusedExactly(t, u, now); }
  }

  // ----- a request returned to pending by a rejected answer -----

  const LISTED := Row(21, 11, Some(2), 5, 0, Queued)
  const ANSWER := Op(Respond, Accepted, Some(Payload(None, 0, 1)), Some(7))
  const QUESTION := Request(1, 1, Deciding, Some(12), 100)

  // With an enqueued message listed: the receipt, a question and its answer, the end of the
  // turn, the start of the queued one, and only then the rejection of the answer.
  function Rejection(): seq<Step> {
    [Confirm(11, Some(21), 0), Ask(7, 1, 1, 0, 100, 0), Admit(12, Respond, Payload(None, 0, 1), Some(7), 0),
     Update(Report(1, Completed, [Item(21, 11, 5, 0, false)]), 0), Update(Report(2, RunState.Running, []), 0), Fail(12, 0)]
  }

  function Receipted(): Tables {
    OneListed().(ops := map[10 := SPAWN, 11 := FIRST.(state := Confirmed)])
  }

  function Questioned(): Tables {
    Receipted().(requests := map[7 := Request(1, 1, Pending, None, 100)], last := 4)
  }

  function Answered(): Tables {
    Receipted().(ops := map[10 := SPAWN, 11 := FIRST.(state := Confirmed), 12 := ANSWER], requests := map[7 := QUESTION], last := 5)
  }

  function Ended(): Tables {
    Answered().(state := Completed, turns := map[1 := Completed], last := 6)
  }

  function QueuedTurn(): Tables {
    Ended().(turn := 2, state := RunState.Running, turns := map[1 := Completed, 2 := RunState.Running],
             queue := [LISTED.(state := Consumed)], last := 8)
  }

  function Returned(): Tables {
    QueuedTurn().(ops := QueuedTurn().ops[12 := ANSWER.(state := OpState.Rejected)],
                  requests := map[7 := Request(1, 1, Pending, None, 100)], last := 9)
  }

  lemma {:induction false} OneActive(rows: seq<Row>)
    requires |rows| == 1 && ActiveRow(rows[0])
    ensures ActiveRows(rows) == rows
  {
    assert Split(rows, 0);
    ActiveIsTail(rows, 0);
    assert rows[0..] == rows;
  }

  lemma {:induction false} ReceiptStep()
    ensures After(OneListed(), Rejection()[0]) == Receipted()
  {
    var t := OneListed();
    OneActive(t.queue);
    assert ItemIds(Items(ActiveRows(t.queue)))[0] == 21;
    assert Listed(t, 21);
  }

  lemma {:induction false} QuestionStep()
    ensures After(Receipted(), Rejection()[1]) == Questioned()
  {
  }

  lemma {:induction false} AnswerStep()
    ensures After(Questioned(), Rejection()[2]) == Answered()
  {
    assert Admissible(Questioned(), Rejection()[2]);
  }

  lemma {:induction false} ListedAgain(ops: map<Id, Op>)
    requires 11 in ops && ops[11] == FIRST.(state := Confirmed)
    ensures QueueMirror(ops, [LISTED], [Item(21, 11, 5, 0, false)]) == Some([LISTED])
  {
    var rows, items := [LISTED], [Item(21, 11, 5, 0, false)];
    OneActive(rows);
    assert MirrorItems(ops, rows, items, 0) == Some(rows) && ItemIds(items[..0]) == [];
    assert Find(rows, 21) == 0 && rows[0 := LISTED] == rows;
    assert MirrorItems(ops, rows, items, 1) == Some(rows);
    assert Ids(rows) == [21] && ItemIds(items) == [21];
  }

  lemma {:induction false} EndStep()
    ensures After(Answered(), Rejection()[3]) == Ended()
  {
    var t := Answered();
    OneActive(t.queue);
    ListedAgain(t.ops);
    assert PendingIds(t.requests) == {};
    assert Items(ActiveRows(t.queue)) == [Item(21, 11, 5, 0, false)];
    assert Withdrawing(t.requests, 0) == t.requests;
  }

  lemma {:induction false} QueuedStep()
    ensures After(Ended(), Rejection()[4]) == QueuedTurn()
  {
    var t := Ended();
    var rows := [LISTED.(state := Consumed)];
    OneActive(t.queue);
    assert Reserves(t.ops[11], 2) && !Reserves(t.ops[10], 2) && !Reserves(t.ops[12], 2);
    assert Reservation(t.ops, 2) == Some(11);
    assert Consume(t.queue, 2) == rows && Items(ActiveRows(t.queue)) != [];
    ConsumedMirror(t.ops);
  }

  lemma {:induction false} ConsumedMirror(ops: map<Id, Op>)
    ensures QueueMirror(ops, [LISTED.(state := Consumed)], []) == Some([LISTED.(state := Consumed)])
  {
    var rows := [LISTED.(state := Consumed)];
    assert Split(rows, 1);
    ActiveIsTail(rows, 1);
    assert ItemIds([]) == [] && MirrorItems(ops, rows, [], 0) == Some(rows) && Ids([]) == [];
  }

  lemma {:induction false} RejectionStep()
    ensures After(QueuedTurn(), Rejection()[5]) == Returned() && Returns(QueuedTurn(), Rejection()[5])
  {
  }

  lemma {:induction false} ReturnedReached()
    ensures Inv(Begun()) && Inv(Returned()) && Run(Begun(), Opening() + Enqueues() + Rejection()) == Returned()
  {
    var steps := Rejection();
    Opens([]);
    Listing(steps);
    ReceiptStep();
    Further(OneListed(), steps, 0, Receipted());
    QuestionStep();
    Further(Receipted(), steps, 1, Questioned());
    AnswerStep();
    Further(Questioned(), steps, 2, Answered());
    EndStep();
    Further(Answered(), steps, 3, Ended());
    QueuedStep();
    Further(Ended(), steps, 4, QueuedTurn());
    RejectionStep();
    Further(QueuedTurn(), steps, 5, Returned());
    assert steps[0..] == steps && steps[6..] == [];
  }

  lemma {:induction false} ReturnedBlocks(u: Snapshot, now: int)
    requires EndsTurn(u) && u.turn == 2
    ensures Inv(Begun())
    ensures var t := Run(Begun(), Opening() + Enqueues() + Rejection());
      InOrder(t, Report(2, Completed, [])) && (InOrder(t, u) ==> Apply(t, Update(u, now)).None?)
  {
    ReturnedReached();
    var t := Returned();
    ConsumedMirror(t.ops);
    assert StaleOne(t.requests[7], t.turn);
    if InOrder(t, u) { RefusedExactly(t, u, now); }
  }
}
