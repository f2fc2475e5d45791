// Source events on their way from the Node's durable spool into the Gateway's sessions:
// per-session source numbers, deduplicating receipts, acknowledgements and pruning, with
// crashes of either side, reconnections, and deletion of old receipts.
module IngestWorld {
  import opened Basics

  // One source message. `body` stands for the digest of kind and content; `closed` marks a
  // node.session snapshot of the closed state.
  datatype Event = Event(id: Id, session: Id, number: nat, body: Id, closed: bool)

  datatype Ack = Ack(session: Id, number: nat, sequence: nat)

  // ----- Gateway -----

  // `applied` and `anchors` record, in order, the source events taken in and the session
  // sequence each was acknowledged with; `wrote` whether the event entered the log.
  datatype Session = Session(last: nat, sequence: nat, purged: bool, applied: seq<Event>, anchors: seq<nat>, wrote: seq<bool>)

  datatype SourceReceipt = SourceReceipt(session: Id, number: nat, body: Id, sequence: nat)

  datatype Gateway = Gateway(sessions: map<Id, Session>, receipts: map<Id, SourceReceipt>, epoch: nat, registered: Option<nat>)

  datatype Outcome = Applied(ack: Ack) | Duplicate(ack: Ack) | Conflict | Refused

  // `source`. `valid` is the verdict of the kind-specific handler and of the turn lookup;
  // `appended` the number of session events it writes, at least one.
  function Source(g: Gateway, e: Event, valid: bool, appended: nat): (Gateway, Outcome)
  {
    if e.session !in g.sessions then (g, Refused)
    else if e.id in g.receipts then
      var r := g.receipts[e.id];
      if r.body != e.body || r.session != e.session || r.number != e.number then (g, Conflict)
      else (g, Duplicate(Ack(e.session, e.number, r.sequence)))
    else
      var s := g.sessions[e.session];
      if s.purged && !e.closed then (g, Refused)
      else if e.number != s.last + 1 then (g, Conflict)
      else if !valid then (g, Refused)
      else
        // A purged session only acknowledges its closure; nothing is written again.
        var top := if s.purged then s.sequence else s.sequence + 1 + appended;
        var s' := Session(e.number, top, s.purged, s.applied + [e], s.anchors + [top], s.wrote + [!s.purged]);
        (g.(sessions := g.sessions[e.session := s'],
            receipts := g.receipts[e.id := SourceReceipt(e.session, e.number, e.body, top)]),
         Applied(Ack(e.session, e.number, top)))
  }

  // ----- Node -----

  datatype Store = Store(numbers: map<Id, nat>, spool: seq<Event>)

  datatype Pc = Idle | Save(pending: Option<Event>) | Transmit(e: Event)

  datatype Link = Offline | Dialing(epoch: nat) | Up(epoch: nat)

  // `rest` is the part of the spool still to be repeated after a reconnection.
  datatype Node = Node(mem: Store, disk: Store, pc: Pc, link: Link, rest: seq<Event>)

  function Number(s: Store, session: Id): nat {
    if session in s.numbers then s.numbers[session] else 0
  }

  // `emit` before its save: the next number of the session, appended to the spool.
  function Emitted(s: Store, e: Event): Store {
    Store(s.numbers[e.session := e.number], s.spool + [e])
  }

  predicate Kept(e: Event, a: Ack) {
    e.session != a.session || e.number > a.number
  }

  // The spool after an acknowledgement.
  function Prune(spool: seq<Event>, a: Ack): seq<Event> {
    if spool == [] then []
    else (if Kept(spool[0], a) then [spool[0]] else []) + Prune(spool[1..], a)
  }

  // ----- world -----

  // `clean` turns false when the next event of some session was refused on this wire.
  datatype Wire = Wire(up: seq<Event>, down: seq<Ack>, clean: bool)

  // `history` lists the durably emitted events of each session; `drawn` every source id ever
  // drawn, with the session and number it was drawn for.
  datatype World = World(g: Gateway, n: Node, wires: map<nat, Wire>, history: map<Id, seq<Event>>, drawn: map<Id, (Id, nat)>)

  function History(w: World, session: Id): seq<Event> {
    if session in w.history then w.history[session] else []
  }

  function Last(g: Gateway, session: Id): nat {
    if session in g.sessions then g.sessions[session].last else 0
  }

  datatype Step =
    | NewSession(session: Id)
    | OtherAppend(session: Id)
    | Purge(session: Id)
    | DropReceipts(ids: set<Id>)
    | Take(wire: nat, valid: bool, appended: nat, fits: bool)
    | StopPeer
    | CrashGateway(kept: nat)
    | Connect
    | Start
    | Resend(sent: bool)
    | Emit(e: Event)
    | SaveStore
    | TransmitEvent(sent: bool)
    | ReadAck
    | Hangup
    | CrashNode

  predicate Enabled(w: World, s: Step) {
    match s
    case NewSession(x) => x !in w.g.sessions
    case OtherAppend(x) => x in w.g.sessions && !w.g.sessions[x].purged
    case Purge(x) => x in w.g.sessions
    case DropReceipts(_) => true
    case Take(e, _, _, _) => e in w.wires && w.wires[e].up != []
    case StopPeer => true
    case CrashGateway(_) => true
    case Connect => !w.n.link.Up? && w.n.pc.Idle?
    case Start => w.n.link.Dialing?
    case Resend(_) => w.n.link.Up? && w.n.rest != [] && w.n.pc.Idle? && w.n.link.epoch in w.wires
    case Emit(e) =>
      && w.n.link.Up? && w.n.rest == [] && w.n.pc.Idle?
      && e.id !in w.drawn && e.number == Number(w.n.mem, e.session) + 1
    case SaveStore => w.n.pc.Save?
    case TransmitEvent(_) => w.n.pc.Transmit? && w.n.link.Up? && w.n.link.epoch in w.wires
    case ReadAck =>
      && w.n.link.Up? && w.n.rest == [] && w.n.pc.Idle?
      && w.n.link.epoch in w.wires && w.wires[w.n.link.epoch].down != []
    case Hangup => w.n.pc.Idle?
    case CrashNode => true
  }

  function Put(w: World, e: Event, sent: bool): World
    requires w.n.link.Up? && w.n.link.epoch in w.wires
  {
    var x := w.n.link.epoch;
    if sent then w.(wires := w.wires[x := w.wires[x].(up := w.wires[x].up + [e])])
    else w.(n := w.n.(link := Offline, rest := [], pc := Idle))
  }

  // One frame read by the Gateway. Frames of a replaced connection are dropped.
  function DoTake(w: World, x: nat, valid: bool, appended: nat, fits: bool): World
    requires x in w.wires && w.wires[x].up != []
  {
    var wire := w.wires[x].(up := w.wires[x].up[1..]);
    var e := w.wires[x].up[0];
    if w.g.registered != Some(x) then w.(wires := w.wires[x := wire])
    else
      var (g, outcome) := Source(w.g, e, valid, appended);
      match outcome
      case Conflict => w.(g := g, wires := w.wires[x := wire])
      case Refused => w.(g := g, wires := w.wires[x := wire.(clean := wire.clean && e.number <= Last(w.g, e.session))])
      case Duplicate(a) => Answer(w.(g := g, wires := w.wires[x := wire]), x, a, fits)
      case Applied(a) => Answer(w.(g := g, wires := w.wires[x := wire]), x, a, fits)
  }

  function Answer(w: World, x: nat, a: Ack, fits: bool): World
    requires x in w.wires
  {
    if fits then w.(wires := w.wires[x := w.wires[x].(down := w.wires[x].down + [a])])
    else w.(g := w.g.(registered := None))
  }

  function Apply(w: World, s: Step): World
    requires Enabled(w, s)
  {
    match s
    case NewSession(x) => w.(g := w.g.(sessions := w.g.sessions[x := Session(0, 0, false, [], [], [])]))
    case OtherAppend(x) =>
      w.(g := w.g.(sessions := w.g.sessions[x := w.g.sessions[x].(sequence := w.g.sessions[x].sequence + 1)]))
    case Purge(x) => w.(g := w.g.(sessions := w.g.sessions[x := w.g.sessions[x].(purged := true)]))
    case DropReceipts(ids) => w.(g := w.g.(receipts := w.g.receipts - ids))
    case Take(x, valid, appended, fits) => DoTake(w, x, valid, appended, fits)
    case StopPeer => w.(g := w.g.(registered := None))
    case CrashGateway(kept) =>
      w.(g := w.g.(registered := None),
         wires := map x | x in w.wires :: w.wires[x].(up := [], down := w.wires[x].down[..if kept < |w.wires[x].down| then kept else |w.wires[x].down|]))
    case Connect =>
      var x := w.g.epoch + 1;
      w.(g := w.g.(epoch := x, registered := Some(x)), wires := w.wires[x := Wire([], [], true)],
         n := w.n.(link := Dialing(x), rest := []))
    case Start => w.(n := w.n.(link := Up(w.n.link.epoch), rest := w.n.mem.spool))
    case Resend(sent) => Put(w.(n := w.n.(rest := w.n.rest[1..])), w.n.rest[0], sent)
    case Emit(e) => w.(n := w.n.(mem := Emitted(w.n.mem, e), pc := Save(Some(e))), drawn := w.drawn[e.id := (e.session, e.number)])
    case SaveStore =>
      var w1 := w.(n := w.n.(disk := w.n.mem));
      (match w.n.pc.pending
       case None => w1.(n := w1.n.(pc := Idle))
       case Some(e) =>
         w1.(n := w1.n.(pc := Transmit(e)), history := w.history[e.session := History(w, e.session) + [e]]))
    case TransmitEvent(sent) => Put(w.(n := w.n.(pc := Idle)), w.n.pc.e, sent)
    case ReadAck =>
      var x := w.n.link.epoch;
      var a := w.wires[x].down[0];
      w.(wires := w.wires[x := w.wires[x].(down := w.wires[x].down[1..])],
         n := w.n.(mem := w.n.mem.(spool := Prune(w.n.mem.spool, a)), pc := Save(None)))
    case Hangup => w.(n := w.n.(link := Offline, rest := []))
    case CrashNode => w.(n := Node(w.n.disk, w.n.disk, Idle, Offline, []))
  }

  const Initial: World := World(Gateway(map[], map[], 0, None), Node(Store(map[], []), Store(map[], []), Idle, Offline, []), map[], map[], map[])

  ghost predicate Runs(w: World, steps: seq<Step>, w': World)
    decreases |steps|
  {
    if steps == [] then w == w'
    else Enabled(w, steps[0]) && Runs(Apply(w, steps[0]), steps[1..], w')
  }

  ghost predicate Reachable(w: World) {
    exists steps :: Runs(Initial, steps, w)
  }
}
