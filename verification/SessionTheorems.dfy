// What holds of a session after any number of transactions, in any order.
module SessionTheorems {
  import opened Basics
  import opened SessionTables
  import opened SessionMirror
  import opened SessionSafety

  lemma AfterKeeps(t: Tables, s: Step)
    requires Inv(t)
    ensures Inv(After(t, s))
  {
    if Apply(t, s).Some? { StepKeeps(t, s); }
  }

  // Transactions one after another; the ones that roll back change nothing.
  ghost function Run(t: Tables, steps: seq<Step>): (t': Tables)
    requires Inv(t)
    ensures Inv(t')
    decreases |steps|
  {
    if steps == [] then t
    else
      AfterKeeps(t, steps[0]);
      Run(After(t, steps[0]), steps[1..])
  }

  // ----- turns -----

  // At most one turn is active: the current one, exactly while the session is.
  lemma ActiveTurn(t: Tables, x: Id)
    requires Inv(t) && x in t.turns
    ensures Active(t.turns[x]) <==> x == t.turn && Active(t.state)
  {
  }

  predicate Resumed(t: Tables, s: Step) {
    && s.Update? && s.u.turn == t.turn && t.state.Closed? && s.u.state.Completed?
    && ResumeAuthorised(t.ops, t.turn)
  }

  // A finished turn stays finished, and its outcome stands unless an authorised resume
  // declares it completed.
  lemma OutcomeStep(t: Tables, s: Step, x: Id)
    requires Inv(t) && x in t.turns && Terminal(t.turns[x]) && Apply(t, s).Some?
    ensures var t' := Apply(t, s).value;
      && x in t'.turns && Terminal(t'.turns[x])
      && (t'.turns[x] != t.turns[x] ==> x == t.turn && Resumed(t, s) && t'.turns[x].Completed?)
  {
    match s
    case Confirm(op, item, now) => ConfirmOutcome(t, op, item, now, x);
    case Update(u, now) => UpdateOutcome(t, u, now, x);
    case _ =>
  }

  lemma ConfirmOutcome(t: Tables, op: Id, item: Option<Id>, now: int, x: Id)
    requires TurnsOk(t) && op in t.ops && DoConfirm(t, op, item, now).Some? && x in t.turns && Terminal(t.turns[x])
    ensures var t' := DoConfirm(t, op, item, now).value; x in t'.turns && t'.turns[x] == t.turns[x]
  {
    match t.ops[op].kind
    case Queue => ConfirmRest(t, op, item, now);
    case _ =>
  }

  lemma UpdateOutcome(t: Tables, u: Snapshot, now: int, x: Id)
    requires TurnsOk(t) && SessionUpdate(t, u, now).Some? && x in t.turns && Terminal(t.turns[x])
    ensures var t' := SessionUpdate(t, u, now).value;
      && x in t'.turns && Terminal(t'.turns[x])
      && (t'.turns[x] != t.turns[x] ==> x == t.turn && Resumed(t, Update(u, now)) && t'.turns[x].Completed?)
  {
    var t' := SessionUpdate(t, u, now).value;
    UpdateMirrors(t, u, now);
    assert t'.turns == t.turns[u.turn := TurnState(t, u)];
  }

  // Over any run a turn never becomes active again once it has finished.
  lemma {:induction false} FinishedForGood(t: Tables, steps: seq<Step>, x: Id)
    requires Inv(t) && x in t.turns && Terminal(t.turns[x])
    ensures x in Run(t, steps).turns && Terminal(Run(t, steps).turns[x])
    ensures (forall i :: 0 <= i < |steps| ==> !(steps[i].Update? && steps[i].u.state.Completed?)) ==> Run(t, steps).turns[x] == t.turns[x]
    decreases |steps|
  {
    if steps != [] {
      AfterKeeps(t, steps[0]);
      if Apply(t, steps[0]).Some? { OutcomeStep(t, steps[0], x); }
      FinishedForGood(After(t, steps[0]), steps[1..], x);
      assert (forall i :: 0 <= i < |steps| ==> !(steps[i].Update? && steps[i].u.state.Completed?)) ==>
        forall i :: 0 <= i < |steps[1..]| ==> !(steps[1..][i].Update? && steps[1..][i].u.state.Completed?);
    }
  }

  // A turn starts at most once, by a snapshot that names the one admitted command it was
  // drawn for; and nothing ever redraws it.
  lemma StartStep(t: Tables, s: Step, x: Id)
    requires Inv(t) && Apply(t, s).Some?
    ensures var t' := Apply(t, s).value;
      && (x in t.turns ==> x in t'.turns)
      && (x in t.drawn ==> x in t'.drawn && t'.drawn[x] == t.drawn[x])
      && (x in t'.turns && x !in t.turns ==>
            && s.Update? && s.u.turn == x && s.u.state.Running? && !Active(t.state) && !t.state.Closed?
            && x in t.drawn && t.drawn[x] in t.ops && Reserves(t.ops[t.drawn[x]], x))
  {
    StepTurnKeys(t, s);
    StepOps(t, s);
    if s.Update? && s.u.turn != t.turn {
      UpdateMirrors(t, s.u, s.now);
      TheReservation(t, s.u.turn);
    }
  }

  lemma {:induction false} DrawnForGood(t: Tables, steps: seq<Step>, x: Id)
    requires Inv(t) && x in t.drawn
    ensures x in Run(t, steps).drawn && Run(t, steps).drawn[x] == t.drawn[x]
    ensures x in t.turns ==> x in Run(t, steps).turns
    decreases |steps|
  {
    if steps != [] {
      AfterKeeps(t, steps[0]);
      if Apply(t, steps[0]).Some? { StartStep(t, steps[0], x); }
      DrawnForGood(After(t, steps[0]), steps[1..], x);
    }
  }

  // ----- the queue -----

  predicate StartsQueued(t: Tables, s: Step) {
    s.Update? && s.u.turn != t.turn && s.u.turn in t.drawn && t.drawn[s.u.turn] in t.ops && t.ops[t.drawn[s.u.turn]].kind.Queue?
  }

  // Rows keep their identity and their place, consumed ones altogether; later rows follow.
  predicate Extends(a: seq<Row>, b: seq<Row>) {
    && |a| <= |b| && Spent(a) <= Spent(b)
    && (forall i :: 0 <= i < |a| ==> b[i].(state := Queued) == a[i].(state := Queued))
    && (forall i :: 0 <= i < Spent(a) ==> b[i] == a[i])
  }

  lemma MirrorExtends(ops: map<Id, Op>, rows: seq<Row>, items: seq<Item>)
    requires Tidy(rows, Spent(rows)) && QueueMirror(ops, rows, items).Some?
    ensures var r := QueueMirror(ops, rows, items).value; Extends(rows, r) && Spent(r) == Spent(rows)
  {
    var r := QueueMirror(ops, rows, items).value;
    OrderIsReported(ops, rows, Spent(rows), items);
    SpentIs(r, Spent(rows));
  }

  lemma UpdateConsumes(t: Tables, u: Snapshot, now: int)
    requires Inv(t) && !t.purged && SessionUpdate(t, u, now).Some?
    ensures var q, q' := t.queue, SessionUpdate(t, u, now).value.queue;
      && Extends(q, q') && Ids(ActiveRows(q')) == ItemIds(u.queue)
      && Spent(q') == Spent(q) + B(StartsQueued(t, Update(u, now)))
      && (StartsQueued(t, Update(u, now)) ==>
            && t.state.Completed? && t.ops[t.drawn[u.turn]].state.Confirmed?
            && Spent(q) < |q| && q[Spent(q)].op == t.drawn[u.turn] && q[Spent(q)].nextTurn == Some(u.turn))
  {
    var rows := BeforeMirror(t, u);
    UpdateMirrors(t, u, now);
    BeforeMirrorOk(t, u);
    MirrorExtends(t.ops, rows, u.queue);
    MirrorReports(t.ops, rows, Spent(rows), u.queue);
    if u.turn != t.turn {
      TheReservation(t, u.turn);
      ConsumesHead(t, u.turn);
      HeadRow(t, u.turn);
      if StartsQueued(t, Update(u, now)) { SpentIs(rows, Spent(t.queue) + 1); }
    }
  }

  lemma HeadRow(t: Tables, turn: Id)
    requires QueueOk(t)
    ensures HeadIs(t.queue, turn) ==> Spent(t.queue) < |t.queue| && t.queue[Spent(t.queue)].nextTurn == Some(turn)
  {
    ActiveIsTail(t.queue, Spent(t.queue));
  }

  // One transaction: the queue only grows at its end; exactly a queued turn's start consumes
  // a row, the head, after a completed turn and a confirmed enqueue.
  lemma QueueStep(t: Tables, s: Step)
    requires Inv(t) && Apply(t, s).Some? && !Apply(t, s).value.purged
    ensures var q, q' := t.queue, Apply(t, s).value.queue;
      && Extends(q, q') && |q'| - Spent(q') <= QUEUE_LIMIT
      && Spent(q') == Spent(q) + B(StartsQueued(t, s))
      && (StartsQueued(t, s) ==>
            && t.state.Completed? && t.ops[t.drawn[s.u.turn]].state.Confirmed?
            && Spent(q) < |q| && q[Spent(q)].op == t.drawn[s.u.turn] && q[Spent(q)].nextTurn == Some(s.u.turn))
  {
    StepQueue(t, s);
    if s.Confirm? { ConfirmExtends(t, s.op, s.item, s.now); }
    else if s.Update? { UpdateConsumes(t, s.u, s.now); }
    else { QueueUntouched(t, s); }
  }

  lemma QueueUntouched(t: Tables, s: Step)
    requires TurnsOk(t) && Apply(t, s).Some? && !Apply(t, s).value.purged && !s.Confirm? && !s.Update?
    ensures Apply(t, s).value.queue == t.queue
  {
    if s.Fail? { FailParts(t, s.op, s.now); }
  }

  lemma ConfirmExtends(t: Tables, op: Id, item: Option<Id>, now: int)
    requires Inv(t) && op in t.ops && DoConfirm(t, op, item, now).Some?
    ensures var q' := DoConfirm(t, op, item, now).value.queue; Extends(t.queue, q') && Spent(q') == Spent(t.queue)
  {
    ConfirmRest(t, op, item, now);
    if t.ops[op].kind.Queue? && !Listed(t, item.value) {
      MirrorExtends(t.ops, t.queue, Items(ActiveRows(t.queue)) + [Item(item.value, op, t.ops[op].payload.value.text, now, false)]);
    }
  }

  // Over any run without a purge: the queue is a FIFO log. Items keep their place, what was
  // consumed is consumed for good, and the rest is still there, in order.
  lemma {:induction false} QueueRun(t: Tables, steps: seq<Step>)
    requires Inv(t) && !Run(t, steps).purged
    ensures Extends(t.queue, Run(t, steps).queue) && Ids(t.queue) <= Ids(Run(t, steps).queue)
    decreases |steps|
  {
    if steps != [] {
      var t1 := After(t, steps[0]);
      AfterKeeps(t, steps[0]);
      Tombstone(t1, steps[1..]);
      if Apply(t, steps[0]).Some? { QueueStep(t, steps[0]); }
      QueueRun(t1, steps[1..]);
    }
    ExtendsIds(t.queue, Run(t, steps).queue);
  }

  lemma ExtendsIds(a: seq<Row>, b: seq<Row>)
    requires Extends(a, b)
    ensures Ids(a) <= Ids(b)
  {
    forall i | 0 <= i < |a|
      ensures Ids(a)[i] == Ids(b)[i]
    {
      assert b[i].(state := Queued) == a[i].(state := Queued);
    }
  }

  // ----- requests -----

  // A request is being decided exactly while an answer to it is open, and that answer is its
  // decision; it is resolved exactly by a confirmed one; otherwise it has no decision.
  lemma DecidedBy(t: Tables, x: Id)
    requires Inv(t) && x in t.requests
    ensures t.requests[x].state.Deciding? <==> exists o :: Answers(t.ops, o, x) && Open(t.ops[o].state)
    ensures t.requests[x].state.Resolved? <==> exists o :: Answers(t.ops, o, x) && t.ops[o].state.Confirmed?
    ensures forall o :: Answers(t.ops, o, x) && (Open(t.ops[o].state) || t.ops[o].state.Confirmed?) <==> t.requests[x].decision == Some(o)
  {
    assert RequestOk(t.ops, x, t.requests[x]);
    forall o | Answers(t.ops, o, x) && (Open(t.ops[o].state) || t.ops[o].state.Confirmed?)
      ensures t.requests[x].decision == Some(o)
    {
      assert AnswerOk(t, o, t.ops[o]);
    }
  }

  predicate Wins(ops: map<Id, Op>, o: Id, x: Id) {
    Answers(ops, o, x) && ops[o].state.Confirmed?
  }

  predicate SameWin(ops: map<Id, Op>, o: Id, p: Id)
    requires o in ops
  {
    ops[o].request.Some? && Wins(ops, o, ops[o].request.value) && Wins(ops, p, ops[o].request.value)
  }

  // No request is decided twice, even once its row is gone.
  predicate OneWinner(ops: map<Id, Op>) {
    forall o, p :: o in ops && p in ops && SameWin(ops, o, p) ==> o == p
  }

  lemma WinnerStep(t: Tables, s: Step)
    requires Inv(t) && OneWinner(t.ops) && Apply(t, s).Some?
    ensures OneWinner(Apply(t, s).value.ops)
  {
    StepOps(t, s);
    ConfirmedBy(t, s);
    WinnerKept(t, Apply(t, s).value.ops, if s.Confirm? then Some(s.op) else None);
  }

  lemma WinnerKept(t: Tables, ops': map<Id, Op>, confirmed: Option<Id>)
    requires RequestsOk(t) && PurgedOk(t) && OneWinner(t.ops) && OpsKeep(t.ops, ops')
    requires forall o :: o in ops' && ops'[o].state.Confirmed? ==>
      o in t.ops && (t.ops[o].state.Confirmed? || (Open(t.ops[o].state) && confirmed == Some(o)))
    ensures OneWinner(ops')
  {
    forall o, p | o in ops' && p in ops' && SameWin(ops', o, p)
      ensures o == p
    {
      assert AnswerOk(t, o, t.ops[o]) && AnswerOk(t, p, t.ops[p]);
    }
  }

  // Whatever is confirmed afterwards was confirmed before, or is the open one confirmed now.
  predicate Confirms(a: map<Id, Op>, b: map<Id, Op>, now: Option<Id>) {
    forall o :: o in b && b[o].state.Confirmed? ==> o in a && (a[o].state.Confirmed? || (Open(a[o].state) && now == Some(o)))
  }

  lemma OneConfirms(ops: map<Id, Op>, o: Id, op: Op, now: Option<Id>)
    requires op.state.Confirmed? ==> o in ops && (ops[o].state.Confirmed? || (Open(ops[o].state) && now == Some(o)))
    ensures Confirms(ops, ops[o := op], now)
  {
  }

  // Only a confirmation confirms, and only what was open.
  lemma ConfirmedBy(t: Tables, s: Step)
    requires TurnsOk(t) && Apply(t, s).Some?
    ensures Confirms(t.ops, Apply(t, s).value.ops, if s.Confirm? then Some(s.op) else None)
  {
    match s
    case Admit(op, _, _, _, _) => OneConfirms(t.ops, op, DoAdmit(t, s).ops[op], None);
    case Report(op, state) => OneConfirms(t.ops, op, t.ops[op].(state := state), None);
    case Confirm(op, item, now) =>
      ConfirmParts(t, op, item, now);
      OneConfirms(t.ops, op, t.ops[op].(state := Confirmed), Some(op));
    case Fail(op, now) =>
      FailParts(t, op, now);
      OneConfirms(t.ops, op, t.ops[op].(state := Rejected), None);
    case Update(u, now) => UpdateParts(t, u, now);
    case ClearPayload(op) => OneConfirms(t.ops, op, t.ops[op].(payload := None), None);
    case _ =>
  }

  lemma {:induction false} WinnerRun(t: Tables, steps: seq<Step>)
    requires Inv(t) && OneWinner(t.ops)
    ensures OneWinner(Run(t, steps).ops)
    decreases |steps|
  {
    if steps != [] {
      AfterKeeps(t, steps[0]);
      if Apply(t, steps[0]).Some? { WinnerStep(t, steps[0]); }
      WinnerRun(After(t, steps[0]), steps[1..]);
    }
  }

  // ----- tombstones -----

  // Once purged, nothing is ever appended to the log again: it stays empty behind the
  // watermark, without requests, queue items or open operations.
  lemma {:induction false} Tombstone(t: Tables, steps: seq<Step>)
    requires Inv(t)
    ensures t.purged ==>
      var t' := Run(t, steps);
      && t'.purged && t'.last == t.last && t'.earliest == t.last + 1
      && t'.requests == map[] && t'.queue == [] && !AnyOpen(t'.ops)
    decreases |steps|
  {
    if steps != [] {
      AfterKeeps(t, steps[0]);
      if Apply(t, steps[0]).Some? { StepPurged(t, steps[0]); }
      Tombstone(After(t, steps[0]), steps[1..]);
    }
  }

  // ----- a snapshot that cannot get through -----

  // Once turn, capabilities and queue are in order, only a pending request of another turn can
  // make a snapshot fail; StaleRequests tells how one comes about.
  lemma StaleRequestBlocks(t: Tables, u: Snapshot, now: int)
    requires Inv(t) && TurnAllowed(t, u) && CapabilitiesAllowed(t, u) && QueueMirror(t.ops, BeforeMirror(t, u), u.queue).Some?
    ensures SessionUpdate(t, u, now).None? <==>
      (!Active(u.state) || u.state.Cancelling?) && exists x :: x in PendingIds(t.requests) && t.requests[x].turn != t.turn
  {
  }
}
