// The command protocol between one Gateway and one Node as a step system: the durable
// operation and outbox rows, the volatile connections and send queues, the Node's journal
// in memory and on disk, and crashes of either side between any two durable writes.
module ProtocolWorld {
  import opened Basics
  import opened Commands

  // ----- Gateway state -----

  datatype OpState = Accepted | Delivered | Reconciling | Confirmed | Failed

  datatype Outbox = Pending | Dispatching | OutDelivered | Uncertain | NotSent

  datatype Row = Row(cmd: Command, state: OpState, outbox: Outbox, result: Option<Receipt>)

  // Where the handler that holds the server mutex stands. Admitted and Intended are the two
  // durable points inside one command; Booting lists the rows recovery has not visited yet.
  datatype Pc = Idle | Admitted(op: Id) | Intended(op: Id) | Booting(todo: set<Id>)

  datatype Gateway = Gateway(rows: map<Id, Row>, epoch: nat, revoked: bool, registered: Option<nat>, pc: Pc)

  predicate Open(s: OpState) {
    s.Accepted? || s.Delivered? || s.Reconciling?
  }

  // ----- the wire -----

  datatype Down = Ready | Deliver(cmd: Command) | Query(op: Id)

  datatype Report = NotSeen | RepDelivered | RepUnknown | RepRejected | RepConfirmed(receipt: Receipt)

  // command.ack (query == false) and command.status (query == true).
  datatype Up = Up(query: bool, op: Id, report: Report)

  // One connection: the Gateway's bounded send queue, the frame its writer has popped but
  // not yet written, and the bytes under way in both directions.
  datatype Link = Link(queue: seq<Down>, held: seq<Down>, down: seq<Down>, up: seq<Up>)

  // Frames on their way to the Node, oldest first.
  function Path(l: Link): seq<Down> {
    l.down + l.held + l.queue
  }

  // ----- Node state -----

  datatype Stage = JDelivered | JExecuting | JConfirmed(receipt: Receipt) | JRejected | JUnknown

  datatype Entry = Entry(cmd: Command, stage: Stage)

  datatype Store = Store(journal: map<Id, Entry>, calls: nat)

  // Program counter of the Node's `command`, between two durable or visible actions.
  datatype NodePc =
    | NIdle
    | SaveDelivered(op: Id) | AckDelivered(op: Id) | Check(op: Id)
    | SaveRejected(op: Id) | SaveExecuting(op: Id, receipt: Receipt)
    | Finish(op: Id, receipt: Receipt) | SaveConfirmed(op: Id) | AckFinal(op: Id)

  datatype NodeLink = Offline | Dialing(epoch: nat) | Online(epoch: nat)

  datatype Node = Node(mem: Store, disk: Store, pc: NodePc, link: NodeLink)

  // `native` records every native call ever begun, also one whose record a crash lost.
  datatype World = World(me: Identity, g: Gateway, links: map<nat, Link>, n: Node, native: multiset<Id>)

  predicate NodeAt(n: Node, e: nat) {
    n.link == Dialing(e) || n.link == Online(e)
  }

  // ----- Gateway transactions -----

  function FinishOp(g: Gateway, op: Id, state: OpState, result: Option<Receipt>): Gateway
    requires op in g.rows
  {
    g.(rows := g.rows[op := g.rows[op].(state := state, result := result)])
  }

  function SetOutbox(g: Gateway, op: Id, outbox: Outbox): Gateway
    requires op in g.rows
  {
    g.(rows := g.rows[op := g.rows[op].(outbox := outbox)])
  }

  function FailUnsent(g: Gateway, op: Id): Gateway
    requires op in g.rows
  {
    FinishOp(SetOutbox(g, op, NotSent), op, OpState.Failed, None)
  }

  // Doubt about a row: an undelivered outbox becomes uncertain, the operation reconciling.
  function Doubt(g: Gateway, op: Id): Gateway
    requires op in g.rows
  {
    var g1 := if g.rows[op].outbox.OutDelivered? then g else SetOutbox(g, op, Uncertain);
    FinishOp(g1, op, Reconciling, None)
  }

  datatype Outcome = Handled | NotFound | SourceConflict | StaleEpoch | Invalid | RolledBack

  // `acknowledge`. `effects` tells whether the updates of the queue, request and session
  // rows that share the confirming transaction succeed; if not, nothing is committed.
  function Acknowledge(g: Gateway, me: Identity, epoch: nat, m: Up, effects: bool): (Gateway, Outcome) {
    if m.op !in g.rows then (g, NotFound)
    else
      var row := g.rows[m.op];
      if row.state.Confirmed? || row.state.Failed? then
        if m.report.RepConfirmed? && row.result != Some(m.report.receipt) then (g, SourceConflict) else (g, Handled)
      else if !m.query && row.cmd.epoch != epoch then (g, StaleEpoch)
      else
        match m.report
        case NotSeen =>
          if !m.query then (g, Invalid)
          else if row.outbox.OutDelivered? then (FinishOp(g, m.op, Reconciling, None), SourceConflict)
          else (FailUnsent(g, m.op), Handled)
        case RepUnknown => (FinishOp(g, m.op, Reconciling, None), Handled)
        case RepDelivered => (FinishOp(SetOutbox(g, m.op, OutDelivered), m.op, Delivered, None), Handled)
        case RepRejected => (FailUnsent(g, m.op), Handled)
        case RepConfirmed(r) =>
          if !ReceiptMatches(row.cmd, me.node, r) then (g, Invalid)
          else if !effects then (g, RolledBack)
          else (FinishOp(SetOutbox(g, m.op, OutDelivered), m.op, Confirmed, Some(r)), Handled)
  }

  // The admission query that serialises incompatible controls.
  predicate Busy(g: Gateway, session: Option<Id>) {
    session.Some? && exists o :: o in g.rows && g.rows[o].cmd.session == session && Open(g.rows[o].state) && Control(g.rows[o].cmd.kind)
  }

  predicate FreshSession(g: Gateway, session: Option<Id>) {
    forall o :: o in g.rows ==> g.rows[o].cmd.session != session
  }

  // ----- Node helpers -----

  function ReportOf(e: Entry): Report {
    match e.stage
    case JDelivered => RepDelivered
    case JExecuting => RepUnknown
    case JUnknown => RepUnknown
    case JRejected => RepRejected
    case JConfirmed(r) => RepConfirmed(r)
  }

  // `load`: a call that was begun but not finished has an unknown outcome.
  function Reload(e: Entry): Entry {
    if e.stage.JExecuting? then e.(stage := JUnknown) else e
  }

  function Load(s: Store): Store {
    s.(journal := map o | o in s.journal :: Reload(s.journal[o]))
  }

  function SetStage(s: Store, op: Id, stage: Stage): Store
    requires op in s.journal
  {
    s.(journal := s.journal[op := s.journal[op].(stage := stage)])
  }

  // ----- steps -----

  datatype Step =
    | Admit(cmd: Command)
    | Dispatch(now: int, online: bool)
    | EnqueueCommand(fits: bool)
    | AbortDispatch
    | Pop(link: nat)
    | WriteHeld(link: nat, now: int, online: bool, stored: bool)
    | Receive(link: nat, effects: bool)
    | Expire(op: Id, now: int, fits: bool)
    | StopPeer
    | CrashGateway
    | Recover(op: Id)
    | Boot
    | Connect(queries: seq<Id>, fits: bool)
    | Revoke
    | Invalidate(op: Id)
    | Read(sent: bool)
    | Proceed(now: int, session: Option<NodeSession>, freshItem: Id, sent: bool, fault: bool)
    | Hangup
    | CrashNode

  function Enqueue(w: World, d: Down, fits: bool): World {
    if w.g.registered.None? || w.g.registered.value !in w.links then w
    else if !fits then w.(g := w.g.(registered := None))
    else
      var e := w.g.registered.value;
      w.(links := w.links[e := w.links[e].(queue := w.links[e].queue + [d])])
  }

  function Transmit(w: World, m: Up, sent: bool): World {
    if sent && w.n.link.Online? && w.n.link.epoch in w.links then
      var e := w.n.link.epoch;
      w.(links := w.links[e := w.links[e].(up := w.links[e].up + [m])])
    else w.(n := w.n.(link := Offline, pc := NIdle))
  }

  predicate Enabled(w: World, s: Step) {
    match s
    case Admit(cmd) =>
      && w.g.pc.Idle? && w.g.registered == Some(cmd.epoch) && cmd.op !in w.g.rows
      && (if cmd.kind.Create? then cmd.session.Some? && FreshSession(w.g, cmd.session) else !Busy(w.g, cmd.session))
    case Dispatch(_, _) => w.g.pc.Admitted?
    case EnqueueCommand(_) => w.g.pc.Intended?
    case AbortDispatch => w.g.pc.Admitted? || w.g.pc.Intended?
    case Pop(e) => e in w.links && w.links[e].held == [] && w.links[e].queue != []
    case WriteHeld(e, _, _, _) => w.g.pc.Idle? && e in w.links && w.links[e].held != []
    case Receive(e, _) => w.g.pc.Idle? && e in w.links && w.links[e].up != []
    case Expire(op, now, _) =>
      && w.g.pc.Idle? && op in w.g.rows && w.g.rows[op].cmd.deadline <= now
      && (w.g.rows[op].state.Accepted? || w.g.rows[op].state.Delivered?)
    case StopPeer => true
    case CrashGateway => true
    case Recover(op) => w.g.pc.Booting? && op in w.g.pc.todo && op in w.g.rows
    case Boot => w.g.pc == Booting({})
    case Connect(queries, _) =>
      && w.g.pc.Idle? && !w.g.revoked && !w.n.link.Online? && w.n.pc.NIdle?
      && (forall o :: o in queries ==> o in w.g.rows && Open(w.g.rows[o].state))
    case Revoke => w.g.pc.Idle?
    case Invalidate(op) => w.g.pc.Idle? && w.g.revoked && op in w.g.rows && Open(w.g.rows[op].state)
    case Read(_) =>
      && w.n.pc.NIdle? && !w.n.link.Offline?
      && w.n.link.epoch in w.links && w.links[w.n.link.epoch].down != []
    case Proceed(_, _, _, _, _) => !w.n.pc.NIdle? && w.n.pc.op in w.n.mem.journal
    case Hangup => w.n.pc.NIdle?
    case CrashNode => true
  }

  function Apply(w: World, s: Step): World
    requires Enabled(w, s)
  {
    match s
    case Admit(cmd) =>
      w.(g := w.g.(rows := w.g.rows[cmd.op := Row(cmd, Accepted, Pending, None)], pc := Admitted(cmd.op)))
    case Dispatch(now, online) => DoDispatch(w, now, online)
    case EnqueueCommand(fits) => DoEnqueue(w, fits)
    case AbortDispatch => w.(g := w.g.(pc := Idle))
    case Pop(e) =>
      var l := w.links[e];
      w.(links := w.links[e := l.(held := [l.queue[0]], queue := l.queue[1..])])
    case WriteHeld(e, now, online, stored) => DoWrite(w, e, now, online, stored)
    case Receive(e, effects) =>
      var l := w.links[e];
      var w1 := w.(links := w.links[e := l.(up := l.up[1..])]);
      // Frames of a replaced or stopped connection are dropped by its reader.
      if w.g.registered != Some(e) then w1
      else w1.(g := Acknowledge(w.g, w.me, e, l.up[0], effects).0)
    case Expire(op, now, fits) =>
      if w.g.rows[op].outbox.Pending? then w.(g := FailUnsent(w.g, op))
      else Enqueue(w.(g := Doubt(w.g, op)), Query(op), fits)
    case StopPeer => w.(g := w.g.(registered := None))
    case CrashGateway =>
      var todo := set o | o in w.g.rows && Open(w.g.rows[o].state);
      w.(g := w.g.(registered := None, pc := Booting(todo)),
         links := map e | e in w.links :: w.links[e].(queue := [], held := [], up := []))
    case Recover(op) =>
      var g := if w.g.rows[op].outbox.Pending? then FailUnsent(w.g, op) else Doubt(w.g, op);
      w.(g := g.(pc := Booting(w.g.pc.todo - {op})))
    case Boot => w.(g := w.g.(pc := Idle))
    case Connect(queries, fits) =>
      var e := w.g.epoch + 1;
      w.(g := w.g.(epoch := e, registered := if fits then Some(e) else None),
         links := w.links[e := Link([Ready] + seq(|queries|, i requires 0 <= i < |queries| => Query(queries[i])), [], [], [])],
         n := w.n.(link := Dialing(e)))
    case Revoke => w.(g := w.g.(revoked := true, registered := None, epoch := w.g.epoch + 1))
    case Invalidate(op) =>
      w.(g := if w.g.rows[op].outbox.Pending? then FailUnsent(w.g, op) else FinishOp(w.g, op, Reconciling, None))
    case Read(sent) => DoRead(w, sent)
    case Proceed(now, session, freshItem, sent, fault) => DoProceed(w, now, session, freshItem, sent, fault)
    case Hangup => w.(n := w.n.(link := Offline))
    case CrashNode =>
      w.(n := Node(Load(w.n.disk), Load(w.n.disk), NIdle, Offline))
  }

  // `dispatch` up to the durable write intent.
  function DoDispatch(w: World, now: int, online: bool): World
    requires w.g.pc.Admitted?
  {
    var op := w.g.pc.op;
    if op !in w.g.rows then w
    else
      var row := w.g.rows[op];
      if !online || w.g.registered != Some(row.cmd.epoch) || row.cmd.deadline <= now then
        w.(g := FailUnsent(w.g, op).(pc := Idle))
      else
        w.(g := (if row.outbox.Pending? then SetOutbox(w.g, op, Dispatching) else w.g).(pc := Intended(op)))
  }

  // `dispatch` handing the frame to the connection it was admitted for.
  function DoEnqueue(w: World, fits: bool): World
    requires w.g.pc.Intended?
  {
    var op := w.g.pc.op;
    if op !in w.g.rows then w
    else
      var row := w.g.rows[op];
      if fits && w.g.registered == Some(row.cmd.epoch) && row.cmd.epoch in w.links then
        Enqueue(w, Deliver(row.cmd), true).(g := w.g.(pc := Idle))
      else
        w.(g := FailUnsent(w.g, op).(pc := Idle, registered := None))
  }

  // One round of `writer` under the mutex. `stored` is false when recording a failed
  // command itself fails; the frame is dropped all the same.
  function DoWrite(w: World, e: nat, now: int, online: bool, stored: bool): World
    requires e in w.links && w.links[e].held != []
  {
    var l := w.links[e];
    var d := l.held[0];
    var w1 := w.(links := w.links[e := l.(held := l.held[1..])]);
    if w.g.registered != Some(e) then w1
    else if d.Deliver? && (d.cmd.deadline <= now || !online) then
      if stored && d.cmd.op in w.g.rows then w1.(g := FailUnsent(w.g, d.cmd.op)) else w1
    else w.(links := w.links[e := l.(held := l.held[1..], down := l.down + [d])])
  }

  // One frame taken from the connection by the Node's serve loop.
  function DoRead(w: World, sent: bool): World
    requires w.n.pc.NIdle? && !w.n.link.Offline?
    requires w.n.link.epoch in w.links && w.links[w.n.link.epoch].down != []
  {
    var e := w.n.link.epoch;
    var l := w.links[e];
    var d := l.down[0];
    var w1 := w.(links := w.links[e := l.(down := l.down[1..])]);
    if w.n.link.Dialing? then
      w1.(n := w.n.(link := if d.Ready? then Online(e) else Offline))
    else
      match d
      case Ready => w1
      case Query(op) =>
        Transmit(w1, Up(true, op, if op in w.n.mem.journal then ReportOf(w.n.mem.journal[op]) else NotSeen), sent)
      case Deliver(cmd) =>
        if cmd.op in w.n.mem.journal then
          if w.n.mem.journal[cmd.op].cmd != cmd then w1.(n := w.n.(link := Offline))
          else Transmit(w1, Up(false, cmd.op, ReportOf(w.n.mem.journal[cmd.op])), sent)
        else
          w1.(n := w.n.(mem := w.n.mem.(journal := w.n.mem.journal[cmd.op := Entry(cmd, JDelivered)]),
                        pc := SaveDelivered(cmd.op)))
  }

  // One step of the Node's `command` after the journal lookup.
  function DoProceed(w: World, now: int, session: Option<NodeSession>, freshItem: Id, sent: bool, fault: bool): World
    requires !w.n.pc.NIdle? && w.n.pc.op in w.n.mem.journal
  {
    var op := w.n.pc.op;
    var entry := w.n.mem.journal[op];
    match w.n.pc
    case SaveDelivered(_) => w.(n := w.n.(disk := w.n.mem, pc := AckDelivered(op)))
    case AckDelivered(_) =>
      Transmit(w.(n := w.n.(pc := Check(op))), Up(false, op, ReportOf(entry)), sent)
    case Check(_) =>
      (match Decide(entry.cmd, w.me, if w.n.link.Offline? then 0 else w.n.link.epoch, now, session, freshItem)
       case Refuse(_) => w.(n := w.n.(mem := SetStage(w.n.mem, op, JRejected), pc := SaveRejected(op)))
       case Run(receipt, _) =>
         w.(n := w.n.(mem := SetStage(w.n.mem, op, JExecuting).(calls := w.n.mem.calls + 1),
                      pc := SaveExecuting(op, receipt)),
            native := w.native + multiset{op}))
    case SaveRejected(_) => w.(n := w.n.(disk := w.n.mem, pc := AckFinal(op)))
    case SaveExecuting(_, receipt) => w.(n := w.n.(disk := w.n.mem, pc := Finish(op, receipt)))
    case Finish(_, receipt) =>
      if fault then w.(n := w.n.(pc := NIdle, link := Offline))
      else w.(n := w.n.(mem := SetStage(w.n.mem, op, JConfirmed(receipt)), pc := SaveConfirmed(op)))
    case SaveConfirmed(_) => w.(n := w.n.(disk := w.n.mem, pc := AckFinal(op)))
    case AckFinal(_) => Transmit(w.(n := w.n.(pc := NIdle)), Up(false, op, ReportOf(entry)), sent)
  }

  function Initial(me: Identity): World {
    World(me, Gateway(map[], 0, false, None, Idle), map[], Node(Store(map[], 0), Store(map[], 0), NIdle, Offline), multiset{})
  }

  // A run is a list of steps, each enabled where it is taken.
  ghost predicate Runs(w: World, steps: seq<Step>, w': World)
    decreases |steps|
  {
    if steps == [] then w == w'
    else Enabled(w, steps[0]) && Runs(Apply(w, steps[0]), steps[1..], w')
  }

  ghost predicate Reachable(w: World) {
    exists steps :: Runs(Initial(w.me), steps, w)
  }
}
