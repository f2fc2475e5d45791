// What every transaction on a session's rows keeps, and what follows for every run.
module SessionSafety {
  import opened Basics
  import opened SessionTables
  import opened SessionMirror

  // ----- the invariant -----

  // The current turn carries the session's state (or, once the session is closed, its final
  // outcome); every other turn is over.
  predicate TurnsOk(t: Tables) {
    && t.turn in t.turns
    && (forall x :: x in t.turns && x != t.turn ==> Terminal(t.turns[x]))
    && (if t.state.Closed? then Terminal(t.turns[t.turn]) else t.turns[t.turn] == t.state)
  }

  // Every turn id was drawn for one operation, and an operation remembers its own.
  predicate DrawnOk(t: Tables) {
    && (forall x :: x in t.turns ==> x in t.drawn)
    && (forall x :: x in t.drawn ==> t.drawn[x] in t.ops)
    && (forall o :: o in t.ops && t.ops[o].payload.Some? ==> PayloadOk(t.drawn, o, t.ops[o]))
  }

  predicate PayloadOk(drawn: map<Id, Id>, o: Id, op: Op)
    requires op.payload.Some?
  {
    && (StartsTurn(op.kind) <==> op.payload.value.nextTurn.Some?)
    && (op.payload.value.nextTurn.Some? ==> op.payload.value.nextTurn.value in drawn && drawn[op.payload.value.nextTurn.value] == o)
  }

  predicate RowOk(ops: map<Id, Op>, drawn: map<Id, Id>, started: set<Id>, r: Row) {
    && r.op in ops && ops[r.op].kind.Queue?
    && r.nextTurn.Some? && r.nextTurn.value in drawn && drawn[r.nextTurn.value] == r.op
    && (ActiveRow(r) <==> r.nextTurn.value !in started)
    && (ActiveRow(r) ==> ops[r.op].payload.Some?)
    && (ops[r.op].payload.Some? ==> ops[r.op].payload.value.text == r.text && ops[r.op].payload.value.nextTurn == r.nextTurn)
  }

  // How many rows at the front are consumed.
  function Spent(rows: seq<Row>): (k: nat)
    ensures k <= |rows|
  {
    if rows == [] || ActiveRow(rows[0]) then 0 else 1 + Spent(rows[1..])
  }

  lemma {:induction false} SpentIs(rows: seq<Row>, k: nat)
    requires Split(rows, k)
    ensures Spent(rows) == k
  {
    if k > 0 {
      assert forall i :: 0 <= i < |rows[1..]| ==> rows[1..][i] == rows[i + 1];
      SpentIs(rows[1..], k - 1);
    }
  }

  predicate QueueOk(t: Tables) {
    && Tidy(t.queue, Spent(t.queue))
    && |t.queue| - Spent(t.queue) <= QUEUE_LIMIT
    && RowsOk(t.ops, t.drawn, t.turns.Keys, t.queue)
  }

  predicate RowsOk(ops: map<Id, Op>, drawn: map<Id, Id>, started: set<Id>, rows: seq<Row>) {
    forall i :: 0 <= i < |rows| ==> RowOk(ops, drawn, started, rows[i])
  }

  // A queued turn that has started still has its (consumed) row.
  predicate StartedOk(t: Tables) {
    !t.purged ==> AllQueued(t.ops, t.drawn, t.turns.Keys, t.queue)
  }

  predicate AllQueued(ops: map<Id, Op>, drawn: map<Id, Id>, started: set<Id>, rows: seq<Row>) {
    forall x :: x in started && x in drawn && drawn[x] in ops && ops[drawn[x]].kind.Queue? ==> OpQueued(rows, drawn[x])
  }

  predicate Answers(ops: map<Id, Op>, o: Id, x: Id) {
    o in ops && ops[o].kind.Respond? && ops[o].request == Some(x)
  }

  predicate RequestOk(ops: map<Id, Op>, x: Id, r: Request) {
    match r.state
    case Deciding => r.decision.Some? && Answers(ops, r.decision.value, x) && Open(ops[r.decision.value].state)
    case Resolved => r.decision.Some? && Answers(ops, r.decision.value, x) && ops[r.decision.value].state.Confirmed?
    case _ => r.decision.None?
  }

  predicate AnswerOk(t: Tables, o: Id, op: Op) {
    && (op.kind.Respond? <==> op.request.Some?)
    && (op.kind.Respond? && (Open(op.state) || (op.state.Confirmed? && !t.purged)) ==>
          op.request.value in t.requests && t.requests[op.request.value].decision == Some(o))
  }

  predicate RequestsOk(t: Tables) {
    && (forall x :: x in t.requests ==> RequestOk(t.ops, x, t.requests[x]))
    && (forall o :: o in t.ops ==> AnswerOk(t, o, t.ops[o]))
  }

  predicate PurgedOk(t: Tables) {
    && (t.purged ==> !AnyOpen(t.ops) && t.queue == [] && t.requests == map[] && t.earliest == t.last + 1)
    && (!t.purged ==> t.earliest == 1)
  }

  // Only a managed session ever has queue commands.
  predicate ManagedOk(t: Tables) {
    !t.managed ==> forall o :: o in t.ops ==> !t.ops[o].kind.Queue?
  }

  predicate Inv(t: Tables) {
    TurnsOk(t) && DrawnOk(t) && QueueOk(t) && StartedOk(t) && RequestsOk(t) && PurgedOk(t) && ManagedOk(t)
  }

  lemma CreatedOk(turn: Id, op: Id, capabilities: Id, revision: nat, payload: Payload)
    requires payload.nextTurn.None?
    ensures Inv(Created(turn, op, capabilities, revision, payload))
  {
  }

  lemma ImportedOk(turn: Id, op: Id, capabilities: Id, items: nat)
    ensures Inv(Imported(turn, op, capabilities, items))
  {
  }

  // ----- turns -----

  lemma UpdateTurns(t: Tables, u: Snapshot, now: int)
    requires TurnsOk(t) && SessionUpdate(t, u, now).Some?
    ensures TurnsOk(SessionUpdate(t, u, now).value)
  {
  }

  // ----- reservations -----

  // Operations only change their state, lose their payload, or appear.
  predicate OpsKeep(a: map<Id, Op>, b: map<Id, Op>) {
    forall o :: o in a ==> o in b && b[o].kind == a[o].kind && b[o].request == a[o].request && (b[o].payload == a[o].payload || b[o].payload.None?)
  }

  lemma OneOp(ops: map<Id, Op>, o: Id, op: Op)
    requires o in ops ==> op.kind == ops[o].kind && op.request == ops[o].request && (op.payload == ops[o].payload || op.payload.None?)
    ensures OpsKeep(ops, ops[o := op])
  {
  }

  // What a confirmation and a rejection leave alone.
  lemma ConfirmParts(t: Tables, op: Id, item: Option<Id>, now: int)
    requires op in t.ops && DoConfirm(t, op, item, now).Some?
    ensures var t' := DoConfirm(t, op, item, now).value;
      && t'.ops == t.ops[op := t.ops[op].(state := Confirmed)] && t'.drawn == t.drawn && t'.purged == t.purged && t'.earliest == t.earliest
      && t'.turn == t.turn && t'.managed == t.managed
  {
    match t.ops[op].kind
    case Queue =>
      var rows := Enqueued(t, op, item.value, t.ops[op].payload.value.text, now).value;
    case _ =>
  }

  lemma ConfirmTurns(t: Tables, op: Id, item: Option<Id>, now: int)
    requires op in t.ops && DoConfirm(t, op, item, now).Some? && TurnsOk(t)
    ensures TurnsOk(DoConfirm(t, op, item, now).value) && DoConfirm(t, op, item, now).value.turns.Keys == t.turns.Keys
  {
    match t.ops[op].kind
    case Queue =>
      var rows := Enqueued(t, op, item.value, t.ops[op].payload.value.text, now).value;
    case Cancel => assert t.turns[t.turn := Cancelling].Keys == t.turns.Keys;
    case _ =>
  }

  lemma FailParts(t: Tables, op: Id, now: int)
    requires op in t.ops
    ensures var t' := DoFail(t, op, now);
      && t'.ops == t.ops[op := t.ops[op].(state := Rejected)] && t'.drawn == t.drawn && t'.purged == t.purged && t'.earliest == t.earliest
      && t'.turn == t.turn && t'.queue == t.queue && (t.turn in t.turns ==> t'.turns.Keys == t.turns.Keys)
  {
  }

  lemma StepTurns(t: Tables, s: Step)
    requires TurnsOk(t) && Apply(t, s).Some?
    ensures TurnsOk(Apply(t, s).value)
  {
    match s
    case Confirm(op, item, now) => ConfirmTurns(t, op, item, now);
    case Update(u, now) => UpdateTurns(t, u, now);
    case _ =>
  }

  lemma StepOps(t: Tables, s: Step)
    requires t.turn in t.turns && Apply(t, s).Some?
    ensures OpsKeep(t.ops, Apply(t, s).value.ops)
    ensures !s.Admit? ==> Apply(t, s).value.ops.Keys == t.ops.Keys && Apply(t, s).value.drawn == t.drawn
  {
    match s
    case Admit(op, _, _, _, _) => OneOp(t.ops, op, DoAdmit(t, s).ops[op]);
    case Report(op, state) => OneOp(t.ops, op, t.ops[op].(state := state));
    case Confirm(op, item, now) =>
      ConfirmParts(t, op, item, now);
      OneOp(t.ops, op, t.ops[op].(state := Confirmed));
    case Fail(op, now) =>
      FailParts(t, op, now);
      OneOp(t.ops, op, t.ops[op].(state := Rejected));
    case Update(u, now) => UpdateParts(t, u, now);
    case ClearPayload(op) => OneOp(t.ops, op, t.ops[op].(payload := None));
    case _ =>
  }

  // What a snapshot leaves alone.
  lemma UpdateParts(t: Tables, u: Snapshot, now: int)
    requires t.turn in t.turns && SessionUpdate(t, u, now).Some?
    ensures var t' := SessionUpdate(t, u, now).value;
      && t'.ops == t.ops && t'.drawn == t.drawn && t'.purged == t.purged && t'.earliest == t.earliest && t'.managed == t.managed
      && t'.turn == u.turn && t'.state == u.state && t'.turns.Keys == t.turns.Keys + {u.turn}
  {
  }

  // The reservation a new turn names is the operation that drew it.
  lemma ReservedBy(t: Tables, turn: Id, o: Id)
    requires DrawnOk(t) && o in t.ops && Reserves(t.ops[o], turn)
    ensures turn in t.drawn && t.drawn[turn] == o
  {
    assert PayloadOk(t.drawn, o, t.ops[o]);
  }

  lemma TheReservation(t: Tables, turn: Id)
    requires DrawnOk(t) && Reservation(t.ops, turn).Some?
    ensures turn in t.drawn && Reservation(t.ops, turn) == Some(t.drawn[turn])
    ensures t.drawn[turn] in t.ops && Reserves(t.ops[t.drawn[turn]], turn)
  {
    ReservedBy(t, turn, Reservation(t.ops, turn).value);
  }

  lemma KeptPayloads(t: Tables, t': Tables)
    requires DrawnOk(t) && OpsKeep(t.ops, t'.ops) && t'.ops.Keys == t.ops.Keys && t'.drawn == t.drawn
    requires forall x :: x in t'.turns ==> x in t.drawn
    ensures DrawnOk(t')
  {
    forall o | o in t'.ops && t'.ops[o].payload.Some?
      ensures PayloadOk(t'.drawn, o, t'.ops[o])
    {
      assert PayloadOk(t.drawn, o, t.ops[o]);
    }
  }

  lemma AdmitDrawn(t: Tables, s: Step)
    requires DrawnOk(t) && s.Admit? && Admissible(t, s)
    ensures DrawnOk(DoAdmit(t, s))
  {
    var t' := DoAdmit(t, s);
    forall o | o in t'.ops && t'.ops[o].payload.Some?
      ensures PayloadOk(t'.drawn, o, t'.ops[o])
    {
      if o in t.ops { assert PayloadOk(t.drawn, o, t.ops[o]); }
    }
  }

  // A turn enters the table only as the reservation of an accepted command.
  lemma StepTurnKeys(t: Tables, s: Step)
    requires TurnsOk(t) && Apply(t, s).Some?
    ensures Apply(t, s).value.turns.Keys == t.turns.Keys + if s.Update? then {s.u.turn} else {}
  {
    match s
    case Confirm(op, item, now) => ConfirmTurns(t, op, item, now);
    case Fail(op, now) => FailParts(t, op, now);
    case Update(u, now) => UpdateParts(t, u, now);
    case _ =>
  }

  // A turn starts only by its reservation.
  lemma StartsDrawn(t: Tables, s: Step)
    requires TurnsOk(t) && DrawnOk(t) && Apply(t, s).Some?
    ensures forall x :: x in Apply(t, s).value.turns ==> x in t.drawn
  {
    StepTurnKeys(t, s);
    if s.Update? && s.u.turn != t.turn {
      UpdateMirrors(t, s.u, s.now);
      TheReservation(t, s.u.turn);
    }
  }

  lemma StepDrawn(t: Tables, s: Step)
    requires TurnsOk(t) && DrawnOk(t) && Apply(t, s).Some?
    ensures DrawnOk(Apply(t, s).value)
  {
    if s.Admit? {
      AdmitDrawn(t, s);
    } else {
      StepOps(t, s);
      StartsDrawn(t, s);
      KeptPayloads(t, Apply(t, s).value);
    }
  }

  // ----- the queue -----

  lemma RowsKeep(rows: seq<Row>, ops: map<Id, Op>, drawn: map<Id, Id>, ops': map<Id, Op>, drawn': map<Id, Id>, started: set<Id>)
    requires RowsOk(ops, drawn, started, rows) && OpsKeep(ops, ops')
    requires forall x :: x in drawn ==> x in drawn' && drawn'[x] == drawn[x]
    requires forall i :: 0 <= i < |rows| && ActiveRow(rows[i]) && rows[i].op in ops && rows[i].op in ops' ==>
      ops'[rows[i].op].payload == ops[rows[i].op].payload
    ensures RowsOk(ops', drawn', started, rows)
  {
    forall i | 0 <= i < |rows|
      ensures RowOk(ops', drawn', started, rows[i])
    {
      assert RowOk(ops, drawn, started, rows[i]);
    }
  }

  predicate PayloadsOk(ops: map<Id, Op>, drawn: map<Id, Id>) {
    forall o :: o in ops && ops[o].payload.Some? ==> PayloadOk(drawn, o, ops[o])
  }

  lemma RowsMirrored(ops: map<Id, Op>, drawn: map<Id, Id>, started: set<Id>, rows: seq<Row>, k: nat, items: seq<Item>)
    requires Tidy(rows, k) && RowsOk(ops, drawn, started, rows) && PayloadsOk(ops, drawn) && AllQueued(ops, drawn, started, rows)
    requires QueueMirror(ops, rows, items).Some?
    ensures var r := QueueMirror(ops, rows, items).value;
      Tidy(r, k) && |r| == k + |items| && RowsOk(ops, drawn, started, r) && AllQueued(ops, drawn, started, r)
  {
    var r := QueueMirror(ops, rows, items).value;
    OrderIsReported(ops, rows, k, items);
    AcceptedOnly(ops, rows, k, items);
    forall i | 0 <= i < |r|
      ensures RowOk(ops, drawn, started, r[i])
    {
      if i < |rows| {
        assert RowOk(ops, drawn, started, rows[i]);
        assert rows[i].(state := Queued) == r[i].(state := Queued);
      } else {
        AddedRow(ops, drawn, started, rows, r, k, items, i - k);
      }
    }
    GrownQueued(ops, drawn, started, rows, r);
  }

  lemma AddedRow(ops: map<Id, Op>, drawn: map<Id, Id>, started: set<Id>, rows: seq<Row>, r: seq<Row>, k: nat, items: seq<Item>, i: nat)
    requires PayloadsOk(ops, drawn) && AllQueued(ops, drawn, started, rows)
    requires k <= |rows| && |rows| - k <= i < |items| && Fresh(rows, items[i]) && Mirrors(ops, items[i])
    requires HoldsAt(ops, rows, r, items[i], k + i)
    ensures RowOk(ops, drawn, started, r[k + i])
  {
    var q := items[i];
    assert r[k + i] == NewRow(ops, q);
    assert PayloadOk(drawn, q.op, ops[q.op]);
  }

  lemma GrownQueued(ops: map<Id, Op>, drawn: map<Id, Id>, started: set<Id>, rows: seq<Row>, r: seq<Row>)
    requires AllQueued(ops, drawn, started, rows) && Grown(rows, r)
    ensures AllQueued(ops, drawn, started, r)
  {
    forall o | OpQueued(rows, o)
      ensures OpQueued(r, o)
    {
      var i :| 0 <= i < |rows| && rows[i].op == o;
      assert rows[i].(state := Queued) == r[i].(state := Queued);
      assert r[i] in r;
    }
  }

  // A turn started from the queue consumes exactly the head; any other turn, nothing.
  lemma ConsumesHead(t: Tables, turn: Id)
    requires DrawnOk(t) && QueueOk(t) && turn in t.drawn && t.drawn[turn] in t.ops && turn !in t.turns
    requires t.ops[t.drawn[turn]].kind.Queue? ==> HeadIs(t.queue, turn)
    ensures var k, rows := Spent(t.queue), Consume(t.queue, turn);
      if t.ops[t.drawn[turn]].kind.Queue?
      then k < |t.queue| && t.queue[k].op == t.drawn[turn] && rows == t.queue[k := t.queue[k].(state := Consumed)] && Tidy(rows, k + 1)
      else rows == t.queue
  {
    var k, rows := Spent(t.queue), Consume(t.queue, turn);
    ActiveIsTail(t.queue, k);
    forall i | 0 <= i < |t.queue| && t.queue[i].nextTurn == Some(turn)
      ensures t.queue[i].op == t.drawn[turn] && t.ops[t.drawn[turn]].kind.Queue?
    {
      assert RowOk(t.ops, t.drawn, t.turns.Keys, t.queue[i]);
    }
    if t.ops[t.drawn[turn]].kind.Queue? {
      assert t.queue[k..][0].nextTurn == Some(turn);
      assert forall i :: 0 <= i < |t.queue| && i != k ==> t.queue[i].nextTurn != Some(turn);
      assert rows == t.queue[k := t.queue[k].(state := Consumed)];
      assert rows[k].op == t.queue[k].op && rows[k].id == t.queue[k].id;
    } else {
      assert rows == t.queue;
    }
  }

  lemma ConsumedRows(t: Tables, turn: Id)
    requires DrawnOk(t) && QueueOk(t) && turn in t.drawn && t.drawn[turn] in t.ops && turn !in t.turns && !t.purged && StartedOk(t)
    requires t.ops[t.drawn[turn]].kind.Queue? ==> HeadIs(t.queue, turn)
    ensures var rows := Consume(t.queue, turn);
      RowsOk(t.ops, t.drawn, t.turns.Keys + {turn}, rows) && AllQueued(t.ops, t.drawn, t.turns.Keys + {turn}, rows)
  {
    var rows := Consume(t.queue, turn);
    ConsumesHead(t, turn);
    forall i | 0 <= i < |rows|
      ensures RowOk(t.ops, t.drawn, t.turns.Keys + {turn}, rows[i])
    {
      assert RowOk(t.ops, t.drawn, t.turns.Keys, t.queue[i]);
    }
    forall o | OpQueued(t.queue, o)
      ensures OpQueued(rows, o)
    {
      var i :| 0 <= i < |t.queue| && t.queue[i].op == o;
      assert rows[i] in rows && rows[i].op == o;
    }
    if t.ops[t.drawn[turn]].kind.Queue? {
      assert t.queue[Spent(t.queue)] in t.queue;
    }
  }

  // The rows a snapshot reconciles against.
  function BeforeMirror(t: Tables, u: Snapshot): seq<Row> {
    if u.turn != t.turn then Consume(t.queue, u.turn) else t.queue
  }

  lemma UpdateMirrors(t: Tables, u: Snapshot, now: int)
    requires t.turn in t.turns && SessionUpdate(t, u, now).Some?
    ensures TurnAllowed(t, u) && QueueMirror(t.ops, BeforeMirror(t, u), u.queue) == Some(SessionUpdate(t, u, now).value.queue)
  {
  }

  lemma BeforeMirrorOk(t: Tables, u: Snapshot)
    requires TurnsOk(t) && DrawnOk(t) && QueueOk(t) && StartedOk(t) && !t.purged && TurnAllowed(t, u)
    ensures var rows := BeforeMirror(t, u);
      && Tidy(rows, Spent(rows)) && RowsOk(t.ops, t.drawn, t.turns.Keys + {u.turn}, rows)
      && AllQueued(t.ops, t.drawn, t.turns.Keys + {u.turn}, rows)
  {
    if u.turn != t.turn {
      TheReservation(t, u.turn);
      ConsumesHead(t, u.turn);
      ConsumedRows(t, u.turn);
      var rows := BeforeMirror(t, u);
      if t.ops[t.drawn[u.turn]].kind.Queue? { SpentIs(rows, Spent(t.queue) + 1); } else { SpentIs(rows, Spent(t.queue)); }
    } else {
      assert t.turns.Keys + {u.turn} == t.turns.Keys;
    }
  }

  lemma UpdateQueue(t: Tables, u: Snapshot, now: int)
    requires TurnsOk(t) && DrawnOk(t) && QueueOk(t) && StartedOk(t) && !t.purged && |u.queue| <= QUEUE_LIMIT
    requires SessionUpdate(t, u, now).Some?
    ensures QueueOk(SessionUpdate(t, u, now).value) && StartedOk(SessionUpdate(t, u, now).value)
  {
    var rows, t' := BeforeMirror(t, u), SessionUpdate(t, u, now).value;
    UpdateMirrors(t, u, now);
    UpdateParts(t, u, now);
    BeforeMirrorOk(t, u);
    RowsMirrored(t.ops, t.drawn, t'.turns.Keys, rows, Spent(rows), u.queue);
    SpentIs(t'.queue, Spent(rows));
  }

  lemma EnqueuedRows(t: Tables, op: Id, item: Id, text: Id, now: int)
    requires DrawnOk(t) && QueueOk(t) && StartedOk(t) && !t.purged && Enqueued(t, op, item, text, now).Some?
    ensures var r := Enqueued(t, op, item, text, now).value;
      && Tidy(r, Spent(r)) && Spent(r) == Spent(t.queue) && |r| - Spent(r) <= QUEUE_LIMIT
      && RowsOk(t.ops, t.drawn, t.turns.Keys, r) && AllQueued(t.ops, t.drawn, t.turns.Keys, r)
  {
    if !Listed(t, item) {
      var k := Spent(t.queue);
      var items := Items(ActiveRows(t.queue)) + [Item(item, op, text, now, false)];
      RowsMirrored(t.ops, t.drawn, t.turns.Keys, t.queue, k, items);
      SpentIs(Enqueued(t, op, item, text, now).value, k);
    }
  }

  lemma ConfirmRest(t: Tables, op: Id, item: Option<Id>, now: int)
    requires op in t.ops && DoConfirm(t, op, item, now).Some?
    ensures var t' := DoConfirm(t, op, item, now).value;
      if t.ops[op].kind.Queue?
      then item.Some? && t.ops[op].payload.Some?
           && Enqueued(t, op, item.value, t.ops[op].payload.value.text, now) == Some(t'.queue)
           && t'.requests == t.requests && t'.turns == t.turns && t'.state == t.state
      else t'.queue == t.queue
  {
    match t.ops[op].kind
    case Queue => var rows := Enqueued(t, op, item.value, t.ops[op].payload.value.text, now).value;
    case _ =>
  }

  lemma SetOpRows(ops: map<Id, Op>, drawn: map<Id, Id>, started: set<Id>, rows: seq<Row>, op: Id, state: OpState)
    requires op in ops && RowsOk(ops, drawn, started, rows) && AllQueued(ops, drawn, started, rows)
    ensures var ops' := ops[op := ops[op].(state := state)]; RowsOk(ops', drawn, started, rows) && AllQueued(ops', drawn, started, rows)
  {
    var ops' := ops[op := ops[op].(state := state)];
    OneOp(ops, op, ops'[op]);
    RowsKeep(rows, ops, drawn, ops', drawn, started);
  }

  lemma ConfirmQueue(t: Tables, op: Id, item: Option<Id>, now: int)
    requires TurnsOk(t) && DrawnOk(t) && QueueOk(t) && StartedOk(t) && !t.purged && op in t.ops && DoConfirm(t, op, item, now).Some?
    ensures QueueOk(DoConfirm(t, op, item, now).value) && StartedOk(DoConfirm(t, op, item, now).value)
  {
    var t' := DoConfirm(t, op, item, now).value;
    ConfirmParts(t, op, item, now);
    ConfirmTurns(t, op, item, now);
    ConfirmRest(t, op, item, now);
    if t.ops[op].kind.Queue? { EnqueuedRows(t, op, item.value, t.ops[op].payload.value.text, now); }
    SetOpRows(t.ops, t.drawn, t.turns.Keys, t'.queue, op, Confirmed);
  }

  lemma AdmitQueue(t: Tables, s: Step)
    requires DrawnOk(t) && QueueOk(t) && StartedOk(t) && s.Admit? && Admissible(t, s)
    ensures QueueOk(DoAdmit(t, s)) && StartedOk(DoAdmit(t, s))
  {
    var t' := DoAdmit(t, s);
    OneOp(t.ops, s.op, t'.ops[s.op]);
    RowsKeep(t.queue, t.ops, t.drawn, t'.ops, t'.drawn, t.turns.Keys);
  }

  lemma StateOnlyQueue(t: Tables, op: Id, state: OpState, t': Tables)
    requires QueueOk(t) && StartedOk(t) && op in t.ops && t'.ops == t.ops[op := t.ops[op].(state := state)]
    requires t'.drawn == t.drawn && t'.turns.Keys == t.turns.Keys && t'.queue == t.queue && t'.purged == t.purged
    ensures QueueOk(t') && StartedOk(t')
  {
    OneOp(t.ops, op, t'.ops[op]);
    RowsKeep(t.queue, t.ops, t.drawn, t'.ops, t'.drawn, t.turns.Keys);
  }

  lemma ClearQueue(t: Tables, op: Id)
    requires QueueOk(t) && StartedOk(t) && op in t.ops && Clearable(t, op)
    ensures var t' := t.(ops := t.ops[op := t.ops[op].(payload := None)]); QueueOk(t') && StartedOk(t')
  {
    var t' := t.(ops := t.ops[op := t.ops[op].(payload := None)]);
    OneOp(t.ops, op, t'.ops[op]);
    RowsKeep(t.queue, t.ops, t.drawn, t'.ops, t'.drawn, t.turns.Keys);
  }

  lemma StepQueue(t: Tables, s: Step)
    requires TurnsOk(t) && DrawnOk(t) && QueueOk(t) && StartedOk(t) && PurgedOk(t) && Apply(t, s).Some?
    ensures QueueOk(Apply(t, s).value) && StartedOk(Apply(t, s).value)
  {
    var t' := Apply(t, s).value;
    match s
    case Admit(_, _, _, _, _) => AdmitQueue(t, s);
    case Report(op, state) => StateOnlyQueue(t, op, state, t');
    case Confirm(op, item, now) => ConfirmQueue(t, op, item, now);
    case Fail(op, now) =>
      FailParts(t, op, now);
      StateOnlyQueue(t, op, Rejected, t');
    case Update(u, now) => UpdateQueue(t, u, now);
    case ClearPayload(op) => ClearQueue(t, op);
    case _ =>
  }

  // ----- requests and tombstones -----

  lemma UpdateRequests(t: Tables, u: Snapshot, now: int)
    requires t.turn in t.turns && SessionUpdate(t, u, now).Some?
    ensures var r := SessionUpdate(t, u, now).value.requests;
      r == t.requests || WithdrawAll(t.requests, t.turn, now) == Some(r)
    ensures SessionUpdate(t, u, now).value.last >= t.last
  {
  }

  // Only what is pending changes, and it stays undecided.
  predicate Undecided(a: Request, b: Request) {
    b == a || (a.state.Pending? && (b.state.Withdrawn? || b.state.Expired?) && b.decision == a.decision)
  }

  lemma RequestsKeep(t: Tables, t': Tables)
    requires RequestsOk(t) && t'.ops == t.ops && t'.purged == t.purged
    requires forall x :: x in t.requests ==> x in t'.requests && Undecided(t.requests[x], t'.requests[x])
    requires forall x :: x in t'.requests && x !in t.requests ==> t'.requests[x].state.Pending? && t'.requests[x].decision.None?
    ensures RequestsOk(t')
  {
    forall o | o in t'.ops
      ensures AnswerOk(t', o, t'.ops[o])
    {
      assert AnswerOk(t, o, t.ops[o]);
      var x := t.ops[o].request;
      if x.Some? && x.value in t.requests { assert RequestOk(t.ops, x.value, t.requests[x.value]); }
    }
    forall x | x in t'.requests
      ensures RequestOk(t'.ops, x, t'.requests[x])
    {
      if x in t.requests { assert RequestOk(t.ops, x, t.requests[x]); }
    }
  }

  lemma AdmitRequests(t: Tables, s: Step)
    requires RequestsOk(t) && s.Admit? && Admissible(t, s) && DrawnOk(t)
    ensures RequestsOk(DoAdmit(t, s))
  {
    var t' := DoAdmit(t, s);
    forall o | o in t'.ops
      ensures AnswerOk(t', o, t'.ops[o])
    {
      if o in t.ops { assert AnswerOk(t, o, t.ops[o]); }
    }
    forall x | x in t'.requests
      ensures RequestOk(t'.ops, x, t'.requests[x])
    {
      if x in t.requests { assert RequestOk(t.ops, x, t.requests[x]); }
    }
  }

  lemma ReportRequests(t: Tables, op: Id, state: OpState)
    requires RequestsOk(t) && op in t.ops && Open(t.ops[op].state) && Open(state)
    ensures RequestsOk(SetOp(t, op, state))
  {
    var t' := SetOp(t, op, state);
    forall o | o in t'.ops
      ensures AnswerOk(t', o, t'.ops[o])
    {
      assert AnswerOk(t, o, t.ops[o]);
    }
    forall x | x in t'.requests
      ensures RequestOk(t'.ops, x, t'.requests[x])
    {
      assert RequestOk(t.ops, x, t.requests[x]);
    }
  }

  // The request an open answer decides is waiting for exactly that answer.
  lemma OpenAnswer(t: Tables, op: Id)
    requires RequestsOk(t) && op in t.ops && Open(t.ops[op].state) && t.ops[op].kind.Respond?
    ensures t.ops[op].request.Some? && t.ops[op].request.value in t.requests
    ensures t.requests[t.ops[op].request.value].decision == Some(op) && t.requests[t.ops[op].request.value].state.Deciding?
  {
    assert AnswerOk(t, op, t.ops[op]);
    assert RequestOk(t.ops, t.ops[op].request.value, t.requests[t.ops[op].request.value]);
  }

  // Settling an operation settles the request it decided, if any.
  lemma SettleRequests(t: Tables, op: Id, state: OpState, t': Tables)
    requires RequestsOk(t) && op in t.ops && Open(t.ops[op].state) && (state.Confirmed? || state.Rejected?) && t'.purged == t.purged
    requires t'.ops == t.ops[op := t.ops[op].(state := state)]
    requires !t.ops[op].kind.Respond? ==> t'.requests == t.requests
    requires t.ops[op].kind.Respond? ==>
      && t.ops[op].request.Some? && t.ops[op].request.value in t'.requests
      && (forall x :: x in t'.requests && x != t.ops[op].request.value ==> x in t.requests && t'.requests[x] == t.requests[x])
      && (forall x :: x in t.requests ==> x in t'.requests)
      && var r' := t'.requests[t.ops[op].request.value];
         (if state.Confirmed? then r'.state.Resolved? && r'.decision == Some(op)
          else (r'.state.Pending? || r'.state.Expired?) && r'.decision.None?)
    ensures RequestsOk(t')
  {
    if t.ops[op].kind.Respond? { OpenAnswer(t, op); }
    forall o | o in t'.ops
      ensures AnswerOk(t', o, t'.ops[o])
    {
      assert AnswerOk(t, o, t.ops[o]);
    }
    forall x | x in t'.requests
      ensures RequestOk(t'.ops, x, t'.requests[x])
    {
      assert RequestOk(t.ops, x, t.requests[x]);
    }
  }

  lemma ConfirmRequests(t: Tables, op: Id, item: Option<Id>, now: int)
    requires RequestsOk(t) && op in t.ops && Open(t.ops[op].state) && DoConfirm(t, op, item, now).Some?
    ensures RequestsOk(DoConfirm(t, op, item, now).value)
  {
    var t' := DoConfirm(t, op, item, now).value;
    ConfirmParts(t, op, item, now);
    ConfirmRest(t, op, item, now);
    if t.ops[op].kind.Respond? { OpenAnswer(t, op); }
    SettleRequests(t, op, Confirmed, t');
  }

  lemma FailRequests(t: Tables, op: Id, now: int)
    requires RequestsOk(t) && op in t.ops && Open(t.ops[op].state)
    ensures RequestsOk(DoFail(t, op, now))
  {
    FailParts(t, op, now);
    if t.ops[op].kind.Respond? { OpenAnswer(t, op); }
    SettleRequests(t, op, Rejected, DoFail(t, op, now));
  }

  lemma StepRequests(t: Tables, s: Step)
    requires TurnsOk(t) && DrawnOk(t) && RequestsOk(t) && PurgedOk(t) && Apply(t, s).Some?
    ensures RequestsOk(Apply(t, s).value)
  {
    match s
    case Admit(_, _, _, _, _) => AdmitRequests(t, s);
    case Report(op, state) => ReportRequests(t, op, state);
    case Confirm(op, item, now) => ConfirmRequests(t, op, item, now);
    case Fail(op, now) => FailRequests(t, op, now);
    case Update(u, now) =>
      UpdateParts(t, u, now);
      UpdateRequests(t, u, now);
      RequestsKeep(t, Apply(t, s).value);
    case Ask(_, _, _, _, _, _) => RequestsKeep(t, Apply(t, s).value);
    case Withdraw(_, _, _) => RequestsKeep(t, Apply(t, s).value);
    case ExpireRequest(_, _) => RequestsKeep(t, Apply(t, s).value);
    case _ => OtherRequests(t, s);
  }

  lemma OtherRequests(t: Tables, s: Step)
    requires RequestsOk(t) && t.turn in t.turns && Apply(t, s).Some?
    requires s.Content? || s.PurgeOld? || s.DeleteHistory? || s.ClearPayload?
    ensures RequestsOk(Apply(t, s).value)
  {
    var t' := Apply(t, s).value;
    forall o | o in t'.ops
      ensures AnswerOk(t', o, t'.ops[o])
    {
      assert AnswerOk(t, o, t.ops[o]);
    }
    forall x | x in t'.requests
      ensures RequestOk(t'.ops, x, t'.requests[x])
    {
      assert RequestOk(t.ops, x, t.requests[x]);
    }
  }

  // A tombstone has nothing left that could still act on it.
  lemma StepPurged(t: Tables, s: Step)
    requires TurnsOk(t) && PurgedOk(t) && Apply(t, s).Some?
    ensures PurgedOk(Apply(t, s).value)
    ensures t.purged ==> Apply(t, s).value.purged && Apply(t, s).value.last == t.last
    ensures Apply(t, s).value.last >= t.last
  {
    match s
    case Confirm(op, item, now) => ConfirmParts(t, op, item, now); ConfirmLast(t, op, item, now);
    case Fail(op, now) => FailParts(t, op, now);
    case Update(u, now) => UpdateParts(t, u, now); UpdateRequests(t, u, now);
    case _ =>
  }

  lemma ConfirmLast(t: Tables, op: Id, item: Option<Id>, now: int)
    requires op in t.ops && DoConfirm(t, op, item, now).Some?
    ensures DoConfirm(t, op, item, now).value.last >= t.last
  {
    match t.ops[op].kind
    case Queue => var rows := Enqueued(t, op, item.value, t.ops[op].payload.value.text, now).value;
    case _ =>
  }

  lemma StepManaged(t: Tables, s: Step)
    requires TurnsOk(t) && ManagedOk(t) && Apply(t, s).Some?
    ensures ManagedOk(Apply(t, s).value) && Apply(t, s).value.managed == t.managed
  {
    match s
    case Confirm(op, item, now) => ConfirmParts(t, op, item, now); ConfirmRest(t, op, item, now);
    case Update(u, now) => UpdateParts(t, u, now);
    case _ =>
  }

  // Every transaction keeps the whole invariant.
  lemma StepKeeps(t: Tables, s: Step)
    requires Inv(t) && Apply(t, s).Some?
    ensures Inv(Apply(t, s).value)
  {
    StepTurns(t, s);
    StepDrawn(t, s);
    StepQueue(t, s);
    StepRequests(t, s);
    StepPurged(t, s);
    StepManaged(t, s);
  }
}
