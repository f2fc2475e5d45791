// The command a Gateway operation carries, the receipt a Node answers with, and the two
// pure decisions taken about them: the Node's precondition check before it touches the
// native Agent, and the Gateway's comparison of a receipt with the command it sent.
module Commands {
  import opened Basics

  datatype Kind = Create | Send | Queue | Cancel | Respond | Native

  // One NodeCommand. `control` stands for the digest of a native control (action, model,
  // workspace request kind); project history is a Native command without a session.
  datatype Command = Command(
    op: Id, epoch: nat, deadline: int, kind: Kind,
    session: Option<Id>, turn: Option<Id>, nextTurn: Option<Id>, request: Option<Id>,
    expectedTurn: Option<Id>, capability: nat, target: Id, control: Option<Id>)

  datatype Receipt = Receipt(
    session: Option<Id>, node: Id, turn: Option<Id>, request: Option<Id>,
    queueItem: Option<Id>, native: Option<Id>)

  // Kinds of which the Gateway admits only one undecided operation per session.
  predicate Control(kind: Kind) {
    !kind.Queue?
  }

  // The turn a confirmed receipt has to name.
  function ReceiptTurn(cmd: Command): Option<Id> {
    match cmd.kind
    case Create => cmd.turn
    case Send => cmd.nextTurn
    case Native => if cmd.nextTurn.Some? then cmd.nextTurn else cmd.expectedTurn
    case _ => cmd.expectedTurn
  }

  // Every comparison `acknowledge` makes before it stores a confirmation.
  predicate ReceiptMatches(cmd: Command, node: Id, r: Receipt) {
    && r.session == cmd.session
    && r.node == node
    && r.turn == ReceiptTurn(cmd)
    && (if cmd.kind.Respond? then r.request == cmd.request else r.request.None?)
    && (if cmd.kind.Queue? then r.queueItem.Some? else r.queueItem.None?)
    && (if cmd.kind.Native? then r.native == cmd.control else r.native.None?)
  }

  // Kind by kind, the one receipt that matches; only the item of an enqueue is for the Node
  // to choose.
  lemma MatchesExactly(cmd: Command, node: Id, r: Receipt)
    ensures ReceiptMatches(cmd, node, r) <==>
      match cmd.kind
      case Create => r == Receipt(cmd.session, node, cmd.turn, None, None, None)
      case Send => r == Receipt(cmd.session, node, cmd.nextTurn, None, None, None)
      case Queue => r.queueItem.Some? && r == Receipt(cmd.session, node, cmd.expectedTurn, None, r.queueItem, None)
      case Cancel => r == Receipt(cmd.session, node, cmd.expectedTurn, None, None, None)
      case Respond => r == Receipt(cmd.session, node, cmd.expectedTurn, cmd.request, None, None)
      case Native =>
        r == Receipt(cmd.session, node, if cmd.nextTurn.Some? then cmd.nextTurn else cmd.expectedTurn, None, None, cmd.control)
  {
  }

  // ----- the Fake Node's side -----

  datatype RunState = Running | WaitingApproval | WaitingInput | Completed | Cancelled | Failed | Closed

  datatype NodeRequest = NodeRequest(id: Id, expires: int)

  datatype NodeSession = NodeSession(turn: Id, state: RunState, queue: seq<Id>, request: Option<NodeRequest>)

  datatype Refusal =
    | StaleTurn | CapabilityChanged | ValidationFailed | CapabilityUnsupported
    | RequestAlreadyDecided | RequestExpired | ProtocolUnsupported

  datatype Verdict = Refuse(code: Refusal) | Run(receipt: Receipt, session: NodeSession)

  const QUEUE_LIMIT := 20

  // Identity of the Node process: its id and the project/Agent pair it serves.
  datatype Identity = Identity(node: Id, target: Id)

  // What the Node does with a command it has journalled but not started: refuse it, or
  // hand it to the native Agent with the receipt it will later confirm.
  function Decide(cmd: Command, me: Identity, epoch: nat, now: int,
                  session: Option<NodeSession>, freshItem: Id): Verdict
  {
    if cmd.epoch != epoch || cmd.deadline <= now then Refuse(StaleTurn)
    else if !cmd.kind.Create? && (session.None? || Some(session.value.turn) != cmd.expectedTurn) then Refuse(StaleTurn)
    else if cmd.capability != 1 then Refuse(CapabilityChanged)
    else
      var blank := Receipt(cmd.session, me.node, None, None, None, None);
      match cmd.kind
      case Create =>
        if session.Some? || cmd.target != me.target || cmd.turn.None? then Refuse(ValidationFailed)
        else Run(blank.(turn := cmd.turn), NodeSession(cmd.turn.value, Running, [], None))
      case Queue =>
        var s := session.value;
        if s.state !in {Running, WaitingApproval, WaitingInput} then Refuse(StaleTurn)
        else if |s.queue| >= QUEUE_LIMIT then Refuse(CapabilityUnsupported)
        else Run(blank.(turn := Some(s.turn), queueItem := Some(freshItem)), s.(queue := s.queue + [freshItem]))
      case Send =>
        var s := session.value;
        if s.state !in {Completed, Cancelled, Failed} || cmd.nextTurn.None? then Refuse(StaleTurn)
        else Run(blank.(turn := cmd.nextTurn), s.(turn := cmd.nextTurn.value, state := Running))
      case Cancel =>
        var s := session.value;
        if s.state in {Completed, Cancelled, Closed} then Refuse(StaleTurn)
        else Run(blank.(turn := Some(s.turn)), s.(request := None))
      case Respond =>
        var s := session.value;
        if s.request.None? || Some(s.request.value.id) != cmd.request then Refuse(RequestAlreadyDecided)
        else if s.request.value.expires <= now then Refuse(RequestExpired)
        else Run(blank.(turn := Some(s.turn), request := cmd.request), s)
      case Native => Refuse(ProtocolUnsupported)
  }

  // The Node and the Gateway agree on receipts: whatever the Node runs, the receipt it
  // prepared passes every comparison the Gateway will make, and nothing runs after its
  // deadline, on a replaced connection, or against another turn.
  lemma RunReceiptMatches(cmd: Command, me: Identity, epoch: nat, now: int,
                          session: Option<NodeSession>, freshItem: Id)
    ensures var v := Decide(cmd, me, epoch, now, session, freshItem);
      v.Run? ==>
        && ReceiptMatches(cmd, me.node, v.receipt)
        && cmd.epoch == epoch && now < cmd.deadline
        && (!cmd.kind.Create? ==> session.Some? && Some(session.value.turn) == cmd.expectedTurn)
        && |v.session.queue| <= (if session.Some? then |session.value.queue| else 0) + (if cmd.kind.Queue? then 1 else 0)
        && (session.Some? && |session.value.queue| <= QUEUE_LIMIT ==> |v.session.queue| <= QUEUE_LIMIT)
  {
    match cmd.kind {
      case Create => case Queue => case Send => case Cancel => case Respond => case Native =>
    }
  }

  // ----- what the Node takes on, in the terms of the command and the session -----

  predicate Timely(cmd: Command, epoch: nat, now: int) {
    cmd.epoch == epoch && now < cmd.deadline && cmd.capability == 1
  }

  // The command names the session's current turn.
  predicate Current(cmd: Command, session: Option<NodeSession>) {
    session.Some? && cmd.expectedTurn == Some(session.value.turn)
  }

  predicate Acceptable(cmd: Command, me: Identity, epoch: nat, now: int, session: Option<NodeSession>) {
    Timely(cmd, epoch, now) &&
    match cmd.kind
    case Create => session.None? && cmd.target == me.target && cmd.turn.Some?
    case Send => Current(cmd, session) && cmd.nextTurn.Some? && session.value.state in {Completed, Cancelled, Failed}
    case Queue =>
      Current(cmd, session) && session.value.state in {Running, WaitingApproval, WaitingInput} && |session.value.queue| < QUEUE_LIMIT
    case Cancel => Current(cmd, session) && session.value.state !in {Completed, Cancelled, Closed}
    case Respond =>
      && Current(cmd, session) && session.value.request.Some?
      && cmd.request == Some(session.value.request.value.id) && now < session.value.request.value.expires
    case Native => false
  }

  // The session an accepted command leaves when its native call begins.
  function NextSession(cmd: Command, session: Option<NodeSession>, freshItem: Id): NodeSession
    requires session.None? ==> cmd.kind.Create? && cmd.turn.Some?
    requires cmd.kind.Send? ==> cmd.nextTurn.Some?
  {
    match session
    case None => NodeSession(cmd.turn.value, Running, [], None)
    case Some(s) =>
      match cmd.kind
      case Send => NodeSession(cmd.nextTurn.value, Running, s.queue, s.request)
      case Queue => NodeSession(s.turn, s.state, s.queue + [freshItem], s.request)
      case Cancel => NodeSession(s.turn, s.state, s.queue, None)
      case _ => s
  }

  // The receipt the Gateway expects of it.
  function ExpectedReceipt(cmd: Command, node: Id, freshItem: Id): Receipt {
    Receipt(cmd.session, node, ReceiptTurn(cmd), if cmd.kind.Respond? then cmd.request else None,
            if cmd.kind.Queue? then Some(freshItem) else None, None)
  }

  // The Node runs a command exactly if it is acceptable, and then as described.
  lemma RunsExactly(cmd: Command, me: Identity, epoch: nat, now: int, session: Option<NodeSession>, freshItem: Id)
    ensures var v := Decide(cmd, me, epoch, now, session, freshItem);
      && (v.Run? <==> Acceptable(cmd, me, epoch, now, session))
      && (v.Run? ==> v == Run(ExpectedReceipt(cmd, me.node, freshItem), NextSession(cmd, session, freshItem)))
  {
    match cmd.kind {
      case Create => case Queue => case Send => case Cancel => case Respond => case Native =>
    }
  }

  // Kind by kind: a session is created once, at the Node's own project and Agent, and runs
  // the command's turn.
  lemma CreateRuns(cmd: Command, me: Identity, epoch: nat, now: int, session: Option<NodeSession>, freshItem: Id)
    requires cmd.kind.Create?
    ensures var v := Decide(cmd, me, epoch, now, session, freshItem);
      && (v.Run? <==> cmd.epoch == epoch && now < cmd.deadline && cmd.capability == 1
                      && session.None? && cmd.target == me.target && cmd.turn.Some?)
      && (v.Run? ==> v.session == NodeSession(cmd.turn.value, Running, [], None))
  {
  }

  // A message starts the next turn exactly when the current one is over.
  lemma SendRuns(cmd: Command, me: Identity, epoch: nat, now: int, s: NodeSession, freshItem: Id)
    requires cmd.kind.Send?
    ensures var v := Decide(cmd, me, epoch, now, Some(s), freshItem);
      && (v.Run? <==> cmd.epoch == epoch && now < cmd.deadline && cmd.capability == 1 && cmd.expectedTurn == Some(s.turn)
                      && cmd.nextTurn.Some? && (s.state.Completed? || s.state.Cancelled? || s.state.Failed?))
      && (v.Run? ==> v.session == s.(turn := cmd.nextTurn.value, state := Running))
  {
  }

  // A message is enqueued exactly during a turn, while there is room, behind all others.
  lemma QueueRuns(cmd: Command, me: Identity, epoch: nat, now: int, s: NodeSession, freshItem: Id)
    requires cmd.kind.Queue?
    ensures var v := Decide(cmd, me, epoch, now, Some(s), freshItem);
      && (v.Run? <==> cmd.epoch == epoch && now < cmd.deadline && cmd.capability == 1 && cmd.expectedTurn == Some(s.turn)
                      && (s.state.Running? || s.state.WaitingApproval? || s.state.WaitingInput?) && |s.queue| < QUEUE_LIMIT)
      && (v.Run? ==> v.session == s.(queue := s.queue + [freshItem]) && v.receipt.queueItem == Some(freshItem))
  {
  }

  // A cancel drops the open request.
  lemma CancelRuns(cmd: Command, me: Identity, epoch: nat, now: int, s: NodeSession, freshItem: Id)
    requires cmd.kind.Cancel?
    ensures var v := Decide(cmd, me, epoch, now, Some(s), freshItem);
      && (v.Run? <==> cmd.epoch == epoch && now < cmd.deadline && cmd.capability == 1 && cmd.expectedTurn == Some(s.turn)
                      && !s.state.Completed? && !s.state.Cancelled? && !s.state.Closed?)
      && (v.Run? ==> v.session == s.(request := None))
  {
  }

  // An answer is taken exactly for the open request, before it expires.
  lemma RespondRuns(cmd: Command, me: Identity, epoch: nat, now: int, s: NodeSession, freshItem: Id)
    requires cmd.kind.Respond?
    ensures var v := Decide(cmd, me, epoch, now, Some(s), freshItem);
      && (v.Run? <==> cmd.epoch == epoch && now < cmd.deadline && cmd.capability == 1 && cmd.expectedTurn == Some(s.turn)
                      && s.request.Some? && cmd.request == Some(s.request.value.id) && now < s.request.value.expires)
      && (v.Run? ==> v.session == s && v.receipt.request == cmd.request)
  {
  }

  // Without a session only a create runs, and a native control never does.
  lemma OtherwiseRefused(cmd: Command, me: Identity, epoch: nat, now: int, session: Option<NodeSession>, freshItem: Id)
    requires cmd.kind.Native? || (session.None? && !cmd.kind.Create?)
    ensures Decide(cmd, me, epoch, now, session, freshItem).Refuse?
  {
  }

  // No command replaces a turn that is under way, and only an enqueue changes the queue.
  lemma NoSecondTurn(cmd: Command, me: Identity, epoch: nat, now: int, s: NodeSession, freshItem: Id)
    ensures var v := Decide(cmd, me, epoch, now, Some(s), freshItem);
      v.Run? ==>
        && (s.state.Running? || s.state.WaitingApproval? || s.state.WaitingInput? ==> v.session.turn == s.turn && v.session.state == s.state)
        && (v.session.turn != s.turn ==> cmd.kind.Send? && v.session.state.Running?)
        && (v.session.queue == s.queue || (cmd.kind.Queue? && v.session.queue == s.queue + [freshItem]))
  {
  }
}
