// One session's rows in the Gateway: its state and current turn, the turns, operations,
// queue items and interaction requests that belong to it, and every transaction that
// changes them. A transaction either yields the new rows or rolls back (None).
module SessionTables {
  import opened Basics

  // In the turns table Idle stands for "starting"; Closed never occurs there.
  datatype RunState =
    | Idle | Running | WaitingApproval | WaitingInput | Cancelling
    | Completed | Cancelled | Failed | Closed

  datatype Kind = Create | Send | Queue | Cancel | Respond | Compact | Review | Resume | OtherNative(idle: bool, closedToo: bool)

  datatype OpState = Accepted | Delivered | Reconciling | Confirmed | Rejected

  // What later transactions read back from the stored command.
  datatype Payload = Payload(nextTurn: Option<Id>, text: Id, expectedTurn: Id)

  // `request` is the request a respond operation answers.
  datatype Op = Op(kind: Kind, state: OpState, payload: Option<Payload>, request: Option<Id>)

  datatype ItemState = Queued | Starting | Consumed

  // Rows of queue_items in order of position.
  datatype Row = Row(id: Id, op: Id, nextTurn: Option<Id>, text: Id, created: int, state: ItemState)

  // One element of a reported queue.
  datatype Item = Item(id: Id, op: Id, text: Id, created: int, starting: bool)

  datatype RequestState = Pending | Deciding | Resolved | Expired | Withdrawn

  datatype Request = Request(turn: Id, definition: Id, state: RequestState, decision: Option<Id>, expires: int)

  // `drawn` records every turn id ever reserved, with the operation it was reserved for;
  // `last` is last_sequence, `earliest` the first sequence still stored.
  datatype Tables = Tables(
    turn: Id, state: RunState, capabilities: Id, capabilityRevision: nat, managed: bool, purged: bool,
    turns: map<Id, RunState>, drawn: map<Id, Id>, ops: map<Id, Op>, queue: seq<Row>, requests: map<Id, Request>,
    last: nat, earliest: nat)

  // A node.session snapshot.
  datatype Snapshot = Snapshot(turn: Id, state: RunState, capabilities: Id, capabilityRevision: nat, queue: seq<Item>)

  const QUEUE_LIMIT := 20

  predicate Active(s: RunState) {
    s in {Running, WaitingApproval, WaitingInput, Cancelling, Idle}
  }

  predicate Terminal(s: RunState) {
    s in {Completed, Cancelled, Failed}
  }

  predicate Open(s: OpState) {
    s in {Accepted, Delivered, Reconciling}
  }

  predicate ValidTransition(prev: RunState, next: RunState) {
    if prev == next then true
    else if prev.Closed? then false
    else if next.Closed? then true
    else match prev
      case Idle => next in {Running, Failed}
      case Running => next in {WaitingApproval, WaitingInput, Cancelling, Completed, Cancelled, Failed}
      case WaitingApproval => next in {Running, Cancelling, Completed, Cancelled, Failed}
      case WaitingInput => next in {Running, Cancelling, Completed, Cancelled, Failed}
      case Cancelling => next in {Cancelled, Completed, Failed}
      case _ => false
  }

  // ----- queue -----

  predicate ActiveRow(r: Row) {
    !r.state.Consumed?
  }

  function ActiveRows(rows: seq<Row>): seq<Row> {
    if rows == [] then []
    else (if ActiveRow(rows[0]) then [rows[0]] else []) + ActiveRows(rows[1..])
  }

  function Ids(rows: seq<Row>): seq<Id> {
    seq(|rows|, i requires 0 <= i < |rows| => rows[i].id)
  }

  function ItemIds(items: seq<Item>): seq<Id> {
    seq(|items|, i requires 0 <= i < |items| => items[i].id)
  }

  function ToItem(r: Row): Item {
    Item(r.id, r.op, r.text, r.created, r.state.Starting?)
  }

  function Items(rows: seq<Row>): seq<Item> {
    seq(|rows|, i requires 0 <= i < |rows| => ToItem(rows[i]))
  }

  // Where a queue id stands, or |rows|.
  function Find(rows: seq<Row>, id: Id): (k: nat)
    ensures k <= |rows|
    ensures k < |rows| ==> rows[k].id == id
    ensures forall i :: 0 <= i < k ==> rows[i].id != id
  {
    if rows == [] || rows[0].id == id then 0 else 1 + Find(rows[1..], id)
  }

  predicate OpQueued(rows: seq<Row>, op: Id) {
    exists r :: r in rows && r.op == op
  }

  function ItemMark(q: Item): ItemState {
    if q.starting then Starting else Queued
  }

  // One reported item against the stored rows.
  function MirrorOne(ops: map<Id, Op>, rows: seq<Row>, q: Item): Option<seq<Row>> {
    if q.op !in ops || !ops[q.op].kind.Queue? then None
    else
      var op := ops[q.op];
      if op.state.Rejected? || op.payload.None? || op.payload.value.text != q.text then None
      else
        var k := Find(rows, q.id);
        if k < |rows| then
          if rows[k].op != q.op || rows[k].text != q.text || rows[k].state.Consumed? then None
          else Some(rows[k := rows[k].(state := ItemMark(q))])
        else if OpQueued(rows, q.op) then None
        else Some(rows + [Row(q.id, q.op, op.payload.value.nextTurn, q.text, q.created, ItemMark(q))])
  }

  // The rows after the first n reported items.
  function MirrorItems(ops: map<Id, Op>, rows: seq<Row>, items: seq<Item>, n: nat): Option<seq<Row>>
    requires n <= |items|
  {
    if n == 0 then Some(rows)
    else
      match MirrorItems(ops, rows, items, n - 1)
      case None => None
      case Some(rows') =>
        if items[n - 1].id in ItemIds(items[..n - 1]) then None else MirrorOne(ops, rows', items[n - 1])
  }

  // `queueMirror`: nothing unconsumed may be missing, and the order is the stored one.
  function QueueMirror(ops: map<Id, Op>, rows: seq<Row>, items: seq<Item>): Option<seq<Row>> {
    match MirrorItems(ops, rows, items, |items|)
    case None => None
    case Some(rows') =>
      var ordered := Ids(ActiveRows(rows'));
      if (exists r :: r in rows' && ActiveRow(r) && r.id !in ItemIds(items)) then None
      else if |ordered| > |items| || ordered != ItemIds(items)[..|ordered|] then None
      else Some(rows')
  }

  function Consume(rows: seq<Row>, turn: Id): seq<Row> {
    seq(|rows|, i requires 0 <= i < |rows| => if rows[i].nextTurn == Some(turn) then rows[i].(state := Consumed) else rows[i])
  }

  // ----- requests -----

  predicate LivePending(r: Request, now: int) {
    r.state.Pending? && now < r.expires
  }

  function PendingIds(requests: map<Id, Request>): set<Id> {
    set x | x in requests && requests[x].state.Pending?
  }

  function Withdrawing(requests: map<Id, Request>, now: int): map<Id, Request> {
    map x | x in requests :: if LivePending(requests[x], now) then requests[x].(state := Withdrawn) else requests[x]
  }

  // Withdrawing every pending request when the turn stops being answerable. A request of
  // another turn makes the whole transaction fail.
  function WithdrawAll(requests: map<Id, Request>, turn: Id, now: int): Option<map<Id, Request>> {
    if exists x :: x in PendingIds(requests) && requests[x].turn != turn then None else Some(Withdrawing(requests, now))
  }

  // ----- session snapshots -----

  predicate StartsTurn(kind: Kind) {
    kind.Send? || kind.Queue? || kind.Compact? || kind.Review?
  }

  // The reservation query: an accepted command that drew this turn and still has its payload.
  predicate Reserves(op: Op, turn: Id) {
    StartsTurn(op.kind) && !op.state.Rejected? && op.payload.Some? && op.payload.value.nextTurn == Some(turn)
  }

  ghost function Reservation(ops: map<Id, Op>, turn: Id): Option<Id> {
    if o :| o in ops && Reserves(ops[o], turn) then Some(o) else None
  }

  predicate ResumeAuthorised(ops: map<Id, Op>, turn: Id) {
    exists o :: o in ops && ops[o].kind.Resume? && Open(ops[o].state) && ops[o].payload.Some? && ops[o].payload.value.expectedTurn == turn
  }

  // The head of the unconsumed queue is the one for this turn.
  predicate HeadIs(rows: seq<Row>, turn: Id) {
    ActiveRows(rows) != [] && ActiveRows(rows)[0].nextTurn == Some(turn)
  }

  // Whether a snapshot may change the turn or the state, before the rows are written.
  ghost predicate TurnAllowed(t: Tables, u: Snapshot) {
    if u.turn != t.turn then
      && !Active(t.state) && !t.state.Closed? && u.state.Running?
      && Reservation(t.ops, u.turn).Some? && u.turn !in t.turns
      && var op := t.ops[Reservation(t.ops, u.turn).value];
         (op.kind.Queue? ==> t.state.Completed? && op.state.Confirmed? && HeadIs(t.queue, u.turn))
    else
      ValidTransition(t.state, u.state) || (t.state.Closed? && u.state.Completed? && ResumeAuthorised(t.ops, u.turn))
  }

  predicate CapabilitiesAllowed(t: Tables, u: Snapshot) {
    t.capabilityRevision < u.capabilityRevision
    || (t.capabilityRevision == u.capabilityRevision && t.capabilities == u.capabilities)
  }

  // The state written to the turn: "closed" is no turn state.
  function TurnState(t: Tables, u: Snapshot): RunState
    requires u.turn == t.turn ==> t.turn in t.turns
  {
    if !u.state.Closed? then u.state
    else if t.state.Closed? then (if u.turn in t.turns then t.turns[u.turn] else Failed)
    else if Active(t.state) then Failed
    else t.state
  }

  function B(b: bool): nat {
    if b then 1 else 0
  }

  // Events a snapshot appends.
  function SnapshotEvents(t: Tables, u: Snapshot): nat {
    1
    + B(t.capabilities != u.capabilities || t.capabilityRevision != u.capabilityRevision)
    + B(Items(ActiveRows(t.queue)) != u.queue)
    + (if !Active(u.state) || u.state.Cancelling? then |PendingIds(t.requests)| else 0)
  }

  // `sessionUpdate`.
  ghost function SessionUpdate(t: Tables, u: Snapshot, now: int): Option<Tables>
    requires t.turn in t.turns
  {
    if !TurnAllowed(t, u) || !CapabilitiesAllowed(t, u) then None
    else
      var rows := if u.turn != t.turn then Consume(t.queue, u.turn) else t.queue;
      match QueueMirror(t.ops, rows, u.queue)
      case None => None
      case Some(queue) =>
        match (if !Active(u.state) || u.state.Cancelling? then WithdrawAll(t.requests, t.turn, now) else Some(t.requests))
        case None => None
        case Some(requests) =>
          Some(t.(turn := u.turn, state := u.state, capabilities := u.capabilities, capabilityRevision := u.capabilityRevision,
                  turns := t.turns[u.turn := TurnState(t, u)], queue := queue, requests := requests,
                  last := t.last + SnapshotEvents(t, u)))
  }

  // ----- every transaction as a step -----

  datatype Step =
    | Admit(op: Id, kind: Kind, payload: Payload, answers: Option<Id>, now: int)
    | Report(op: Id, state: OpState)
    | Confirm(op: Id, item: Option<Id>, now: int)
    | Fail(op: Id, now: int)
    | Update(u: Snapshot, now: int)
    | Ask(request: Id, turn: Id, definition: Id, created: int, expires: int, now: int)
    | Withdraw(request: Id, turn: Id, now: int)
    | Content(turn: Id)
    | ExpireRequest(request: Id, now: int)
    | PurgeOld
    | DeleteHistory
    | ClearPayload(op: Id)

  // `capability`, and `workspaceGate` for workspace controls.
  predicate Capable(t: Tables) {
    !t.purged && t.managed && !t.state.Closed?
  }

  predicate Busy(ops: map<Id, Op>) {
    exists o :: o in ops && Open(ops[o].state) && !ops[o].kind.Queue?
  }

  predicate AnyOpen(ops: map<Id, Op>) {
    exists o :: o in ops && Open(ops[o].state)
  }

  // Admission of a command for an existing session.
  predicate Admissible(t: Tables, s: Step)
    requires s.Admit?
  {
    && s.op !in t.ops && s.payload.expectedTurn == t.turn && !Busy(t.ops)
    && (if StartsTurn(s.kind) then s.payload.nextTurn.Some? && s.payload.nextTurn.value !in t.drawn && s.payload.nextTurn.value !in t.turns
        else s.payload.nextTurn.None?)
    && (s.kind.Respond? <==> s.answers.Some?)
    && match s.kind
       case Create => false
       case Send => !Active(t.state) && Capable(t)
       case Queue =>
         Active(t.state) && !t.state.Cancelling? && !t.state.Idle? && |ActiveRows(t.queue)| < QUEUE_LIMIT && Capable(t)
       case Cancel => Active(t.state) && !t.state.Idle? && Capable(t)
       case Compact => !Active(t.state) && Capable(t)
       case Respond =>
         && s.answers.value in t.requests
         && var r := t.requests[s.answers.value];
            r.turn == t.turn && r.decision.None? && LivePending(r, s.now) && !t.state.Cancelling? && Capable(t)
       case Review => !Active(t.state) && Capable(t)
       case Resume => t.state.Closed? && t.managed && !t.purged
       case OtherNative(idle, closedToo) =>
         !t.purged && t.managed && (t.state.Closed? ==> closedToo) && (idle ==> !Active(t.state))
  }

  function DoAdmit(t: Tables, s: Step): Tables
    requires s.Admit?
  {
    var t1 := t.(
      ops := t.ops[s.op := Op(s.kind, Accepted, Some(s.payload), s.answers)],
      drawn := if s.payload.nextTurn.Some? then t.drawn[s.payload.nextTurn.value := s.op] else t.drawn);
    if s.kind.Respond? && s.answers.Some? && s.answers.value in t.requests then
      t1.(requests := t.requests[s.answers.value := t.requests[s.answers.value].(state := Deciding, decision := Some(s.op))],
          last := t.last + 1)
    else t1
  }

  function SetOp(t: Tables, op: Id, state: OpState): Tables
    requires op in t.ops
  {
    t.(ops := t.ops[op := t.ops[op].(state := state)])
  }

  // The queue item a confirmed enqueue names is already listed.
  predicate Listed(t: Tables, item: Id) {
    item in ItemIds(Items(ActiveRows(t.queue)))
  }

  // The rows after a confirmed enqueue: an item not reported yet is appended.
  function Enqueued(t: Tables, op: Id, item: Id, text: Id, now: int): Option<seq<Row>> {
    var active := Items(ActiveRows(t.queue));
    if Listed(t, item) then Some(t.queue)
    else if |active| + 1 > QUEUE_LIMIT then None
    else QueueMirror(t.ops, t.queue, active + [Item(item, op, text, now, false)])
  }

  // The updates `acknowledge` makes together with a confirmation.
  function DoConfirm(t: Tables, op: Id, item: Option<Id>, now: int): Option<Tables>
    requires op in t.ops
  {
    var o := t.ops[op];
    match o.kind
    case Queue =>
      if item.None? || o.payload.None? then None
      else
        (match Enqueued(t, op, item.value, o.payload.value.text, now)
         case None => None
         case Some(rows) => Some(SetOp(t, op, Confirmed).(queue := rows, last := t.last + B(!Listed(t, item.value)))))
    case Respond =>
      if o.request.None? || o.request.value !in t.requests || t.requests[o.request.value].decision != Some(op) then None
      else
        Some(SetOp(t, op, Confirmed).(
          requests := t.requests[o.request.value := t.requests[o.request.value].(state := Resolved)], last := t.last + 1))
    case Cancel =>
      if o.payload.Some? && t.turn == o.payload.value.expectedTurn && Active(t.state) && !t.state.Cancelling? then
        Some(SetOp(t, op, Confirmed).(state := Cancelling, turns := t.turns[t.turn := Cancelling], last := t.last + 1))
      else Some(SetOp(t, op, Confirmed))
    case _ => Some(SetOp(t, op, Confirmed))
  }

  // `failUnsent` with `rejectedEffects`.
  function DoFail(t: Tables, op: Id, now: int): Tables
    requires op in t.ops
  {
    var o := t.ops[op];
    var t1 := SetOp(t, op, Rejected);
    if o.kind.Create? && t.state.Idle? then
      t1.(turns := t.turns[t.turn := Failed], state := Failed, last := t.last + 1)
    else if o.kind.Respond? && o.request.Some? && o.request.value in t.requests
         && t.requests[o.request.value].decision == Some(op) && t.requests[o.request.value].state.Deciding? then
      var r := t.requests[o.request.value];
      t1.(requests := t.requests[o.request.value := r.(state := if now < r.expires then Pending else Expired, decision := None)],
          last := t.last + 1)
    else t1
  }

  function DoPurge(t: Tables): Tables {
    t.(purged := true, queue := [], requests := map[], earliest := t.last + 1)
  }

  // The 24-hour clearing spares what a later snapshot may still have to read.
  predicate Clearable(t: Tables, op: Id)
    requires op in t.ops
  {
    var o := t.ops[op];
    && o.payload.Some? && !Open(o.state)
    && !(exists r :: r in t.queue && r.op == op && ActiveRow(r))
    && !((o.kind.Send? || o.kind.Compact? || o.kind.Review?) && o.state.Confirmed?
         && o.payload.value.nextTurn.Some? && o.payload.value.nextTurn.value !in t.turns)
  }

  ghost function Apply(t: Tables, s: Step): Option<Tables>
    requires t.turn in t.turns
  {
    match s
    case Admit(_, _, _, _, _) => if Admissible(t, s) then Some(DoAdmit(t, s)) else None
    case Report(op, state) =>
      if op in t.ops && Open(t.ops[op].state) && (state.Delivered? || state.Reconciling?) then Some(SetOp(t, op, state)) else None
    case Confirm(op, item, now) =>
      if op in t.ops && Open(t.ops[op].state) then DoConfirm(t, op, item, now) else None
    case Fail(op, now) =>
      if op in t.ops && Open(t.ops[op].state) then Some(DoFail(t, op, now)) else None
    case Update(u, now) => if t.purged || |u.queue| > QUEUE_LIMIT then None else SessionUpdate(t, u, now)
    case Ask(x, turn, definition, created, expires, now) =>
      if t.purged || turn != t.turn || !Active(t.state) || t.state.Cancelling? || expires <= created || expires <= now || created > now + 60 then None
      else if x in t.requests then
        if t.requests[x].definition != definition then None else Some(t.(last := t.last + 1))
      else Some(t.(requests := t.requests[x := Request(turn, definition, Pending, None, expires)], last := t.last + 1))
    case Withdraw(x, turn, now) =>
      if t.purged || x !in t.requests || t.requests[x].turn != turn || turn !in t.turns then None
      else
        Some(t.(requests := if LivePending(t.requests[x], now) then t.requests[x := t.requests[x].(state := Withdrawn)] else t.requests,
                last := t.last + 1))
    case Content(turn) => if t.purged || turn !in t.turns then None else Some(t.(last := t.last + 1))
    case ExpireRequest(x, now) =>
      if x in t.requests && t.requests[x].state.Pending? && t.requests[x].expires <= now then
        Some(t.(requests := t.requests[x := t.requests[x].(state := Expired)], last := t.last + 1))
      else None
    case PurgeOld =>
      if !t.purged && !Active(t.state) && !AnyOpen(t.ops) && ActiveRows(t.queue) == [] then Some(DoPurge(t)) else None
    case DeleteHistory =>
      if t.state.Closed? && !AnyOpen(t.ops) then
        Some(DoPurge(t).(ops := map o | o in t.ops :: t.ops[o].(payload := None)))
      else None
    case ClearPayload(op) =>
      if op in t.ops && Clearable(t, op) then Some(t.(ops := t.ops[op := t.ops[op].(payload := None)])) else None
  }

  // A session begins with a create command, or as the read-only copy of a transcript.
  function Created(turn: Id, op: Id, capabilities: Id, revision: nat, payload: Payload): Tables {
    Tables(turn, Idle, capabilities, revision, true, false, map[turn := Idle], map[turn := op],
           map[op := Op(Create, Accepted, Some(payload), None)], [], map[], 0, 1)
  }

  function Imported(turn: Id, op: Id, capabilities: Id, items: nat): Tables {
    Tables(turn, Closed, capabilities, 1, false, false, map[turn := Completed], map[turn := op],
           map[op := Op(OtherNative(false, true), Confirmed, None, None)], [], map[], items, 1)
  }

  // A run skips the transactions that roll back.
  ghost function After(t: Tables, s: Step): Tables
    requires t.turn in t.turns
  {
    match Apply(t, s) case Some(t') => t' case None => t
  }
}
