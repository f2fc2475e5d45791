// The Fake Node's handlers over its state file: the command journal with a save before every
// acknowledgement and native call, and the spool of source events.
module FakeNode {
  import opened Basics
  import opened Commands
  import opened ProtocolWorld
  import I = IngestWorld

  // What handling a new command leaves in the journal, and what it sends.
  function Answered(s: Store, cmd: Command, v: Verdict, fault: bool): (Store, seq<Up>) {
    var first := Up(false, cmd.op, RepDelivered);
    match v
    case Refuse(_) => (Store(s.journal[cmd.op := Entry(cmd, JRejected)], s.calls), [first, Up(false, cmd.op, RepRejected)])
    case Run(r, _) =>
      if fault then (Store(s.journal[cmd.op := Entry(cmd, JExecuting)], s.calls + 1), [first])
      else (Store(s.journal[cmd.op := Entry(cmd, JConfirmed(r))], s.calls + 1), [first, Up(false, cmd.op, RepConfirmed(r))])
  }

  class Node {
    const me: Identity
    var journal: map<Id, Entry>
    var calls: nat
    var sessions: map<Id, NodeSession>
    // What the state file holds.
    var disk: Store
    // Frames written to the current connection.
    var sent: seq<Up>

    ghost function Memory(): Store
      reads this
    {
      Store(journal, calls)
    }

    ghost predicate Saved()
      reads this
    {
      disk == Memory()
    }

    constructor (me: Identity)
      ensures Saved() && Memory() == Initial(me).n.mem && sessions == map[] && sent == [] && this.me == me
    {
      this.me := me;
      journal, calls, sessions, disk, sent := map[], 0, map[], Store(map[], 0), [];
    }

    method Save()
      modifies this`disk
      ensures Saved()
    {
      disk := Store(journal, calls);
    }

    // `load` after a crash: what is on disk, with interrupted calls marked unknown.
    method Load()
      modifies this`journal, this`calls, this`disk
      ensures Memory() == ProtocolWorld.Load(old(disk)) && Saved()
      ensures calls == old(disk).calls && journal.Keys == old(disk).journal.Keys
      ensures forall o :: o in journal ==>
        && journal[o].cmd == old(disk).journal[o].cmd
        && journal[o].stage == if old(disk).journal[o].stage.JExecuting? then JUnknown else old(disk).journal[o].stage
    {
      journal, calls := disk.journal, disk.calls;
      var left := journal.Keys;
      while left != {}
        invariant left <= journal.Keys == old(disk).journal.Keys && calls == old(disk).calls
        invariant forall o :: o in journal ==> journal[o] == if o in left then old(disk).journal[o] else Reload(old(disk).journal[o])
        decreases |left|
      {
        var o :| o in left;
        if journal[o].stage.JExecuting? { journal := journal[o := journal[o].(stage := JUnknown)]; }
        left := left - {o};
      }
      Save();
    }

    method Receipt(query: bool, op: Id)
      requires op in journal
      modifies this`sent
      ensures sent == old(sent) + [Up(query, op, ReportOf(journal[op]))]
    {
      var report := match journal[op].stage
        case JDelivered => RepDelivered
        case JRejected => RepRejected
        case JConfirmed(r) => RepConfirmed(r)
        case _ => RepUnknown;
      sent := sent + [Up(query, op, report)];
    }

    method Reject(op: Id)
      requires op in journal
      modifies this`journal, this`disk, this`sent
      ensures journal == old(journal)[op := old(journal)[op].(stage := JRejected)] && Saved()
      ensures sent == old(sent) + [Up(false, op, RepRejected)]
    {
      journal := journal[op := journal[op].(stage := JRejected)];
      Save();
      Receipt(false, op);
    }

    // A `command.query` frame.
    method Query(op: Id)
      modifies this`sent
      ensures sent == old(sent) + [Up(true, op, if op in journal then ReportOf(journal[op]) else NotSeen)]
    {
      if op in journal { Receipt(true, op); } else { sent := sent + [Up(true, op, NotSeen)]; }
    }

    // The body of `command`, in the terms of the decision it takes.
    method Handle(cmd: Command, epoch: nat, now: int, freshItem: Id, fault: bool) returns (ok: bool)
      requires Saved()
      modifies this
      ensures Saved()
      ensures cmd.op in old(journal) ==>
        && Memory() == old(Memory()) && sessions == old(sessions) && (ok <==> old(journal)[cmd.op].cmd == cmd)
        && sent == old(sent) + if ok then [Up(false, cmd.op, ReportOf(old(journal)[cmd.op]))] else []
      ensures cmd.op !in old(journal) ==>
        var v := Decide(cmd, me, epoch, now, SessionOf(old(sessions), cmd.session), freshItem);
        && (Memory(), sent) == (Answered(old(Memory()), cmd, v, fault).0, old(sent) + Answered(old(Memory()), cmd, v, fault).1)
        && (ok <==> v.Refuse? || !fault)
        && sessions == if v.Run? && cmd.session.Some? then old(sessions)[cmd.session.value := v.session] else old(sessions)
    {
      var op := cmd.op;
      if op in journal {
        if journal[op].cmd != cmd { return false; }
        Receipt(false, op);
        return true;
      }
      ghost var v := Decide(cmd, me, epoch, now, SessionOf(sessions, cmd.session), freshItem);
      journal := journal[op := Entry(cmd, JDelivered)];
      Save();
      Receipt(false, op);
      assert old(journal)[op := Entry(cmd, JDelivered)][op := Entry(cmd, JRejected)] == old(journal)[op := Entry(cmd, JRejected)];
      assert old(sent) + [Up(false, op, RepDelivered)] + [Up(false, op, RepRejected)] == old(sent) + [Up(false, op, RepDelivered), Up(false, op, RepRejected)];
      var session := SessionOf(sessions, cmd.session);
      if cmd.epoch != epoch || cmd.deadline <= now { Reject(op); return true; }
      if !cmd.kind.Create? && (session.None? || Some(session.value.turn) != cmd.expectedTurn) { Reject(op); return true; }
      if cmd.capability != 1 { Reject(op); return true; }
      var result := Commands.Receipt(cmd.session, me.node, None, None, None, None);
      var next: NodeSession;
      match cmd.kind {
        case Create =>
          if session.Some? || cmd.target != me.target || cmd.turn.None? { Reject(op); return true; }
          next := NodeSession(cmd.turn.value, Running, [], None);
          result := result.(turn := cmd.turn);
        case Queue =>
          next := session.value;
          if next.state != Running && next.state != WaitingApproval && next.state != WaitingInput { Reject(op); return true; }
          if |next.queue| >= QUEUE_LIMIT { Reject(op); return true; }
          result := result.(queueItem := Some(freshItem), turn := Some(next.turn));
          next := next.(queue := next.queue + [freshItem]);
        case Send =>
          next := session.value;
          if (next.state != Completed && next.state != Cancelled && next.state != RunState.Failed) || cmd.nextTurn.None? { Reject(op); return true; }
          next := next.(turn := cmd.nextTurn.value, state := Running);
          result := result.(turn := cmd.nextTurn);
        case Cancel =>
          next := session.value;
          if next.state == Completed || next.state == Cancelled || next.state == Closed { Reject(op); return true; }
          result := result.(turn := Some(next.turn));
          next := next.(request := None);
        case Respond =>
          next := session.value;
          if next.request.None? || Some(next.request.value.id) != cmd.request { Reject(op); return true; }
          if next.request.value.expires <= now { Reject(op); return true; }
          result := result.(request := cmd.request, turn := Some(next.turn));
        case Native =>
          Reject(op);
          return true;
      }
      assert v == Run(result, next);
      ok := Execute(old(Memory()), old(sent), cmd, result, next, fault);
    }

    // The native call, between its two saves, and the final receipt.
    method Execute(ghost before: Store, ghost heard: seq<Up>, cmd: Command, result: Commands.Receipt, next: NodeSession, fault: bool) returns (ok: bool)
      requires Memory() == Store(before.journal[cmd.op := Entry(cmd, JDelivered)], before.calls)
      requires sent == heard + [Up(false, cmd.op, RepDelivered)]
      modifies this
      ensures Saved() && Memory() == Answered(before, cmd, Run(result, next), fault).0
      ensures sent == heard + Answered(before, cmd, Run(result, next), fault).1 && (ok <==> !fault)
      ensures sessions == if cmd.session.Some? then old(sessions)[cmd.session.value := next] else old(sessions)
    {
      if cmd.session.Some? { sessions := sessions[cmd.session.value := next]; }
      journal := journal[cmd.op := Entry(cmd, JExecuting)];
      calls := calls + 1;
      Save();
      assert journal == before.journal[cmd.op := Entry(cmd, JExecuting)];
      if fault { return false; }
      journal := journal[cmd.op := Entry(cmd, JConfirmed(result))];
      Save();
      Receipt(false, cmd.op);
      assert journal == before.journal[cmd.op := Entry(cmd, JConfirmed(result))];
      return true;
    }

    // `command`: a known operation only repeats its receipt; a new one runs exactly if it is
    // acceptable, once, and every state it reports is on disk before the frame is written.
    method Command(cmd: Command, epoch: nat, now: int, freshItem: Id, fault: bool) returns (ok: bool)
      requires Saved()
      modifies this
      ensures Saved()
      ensures cmd.op in old(journal) ==>
        && Memory() == old(Memory()) && sessions == old(sessions) && (ok <==> old(journal)[cmd.op].cmd == cmd)
        && sent == old(sent) + if ok then [Up(false, cmd.op, ReportOf(old(journal)[cmd.op]))] else []
      ensures cmd.op !in old(journal) ==>
        var v := Decide(cmd, me, epoch, now, SessionOf(old(sessions), cmd.session), freshItem);
        && (Memory(), sent) == (Answered(old(Memory()), cmd, v, fault).0, old(sent) + Answered(old(Memory()), cmd, v, fault).1)
        && (ok <==> v.Refuse? || !fault)
        && sessions == if v.Run? && cmd.session.Some? then old(sessions)[cmd.session.value := v.session] else old(sessions)
      ensures cmd.op !in old(journal) && Acceptable(cmd, me, epoch, now, SessionOf(old(sessions), cmd.session)) ==>
        var r := ExpectedReceipt(cmd, me.node, freshItem);
        && (ok <==> !fault) && calls == old(calls) + 1
        && journal == old(journal)[cmd.op := Entry(cmd, if fault then JExecuting else JConfirmed(r))]
        && sent == old(sent) + [Up(false, cmd.op, RepDelivered)] + (if fault then [] else [Up(false, cmd.op, RepConfirmed(r))])
        && sessions == (if cmd.session.None? then old(sessions)
             else old(sessions)[cmd.session.value := NextSession(cmd, SessionOf(old(sessions), cmd.session), freshItem)])
      ensures cmd.op !in old(journal) && !Acceptable(cmd, me, epoch, now, SessionOf(old(sessions), cmd.session)) ==>
        && ok && calls == old(calls) && sessions == old(sessions)
        && journal == old(journal)[cmd.op := Entry(cmd, JRejected)]
        && sent == old(sent) + [Up(false, cmd.op, RepDelivered), Up(false, cmd.op, RepRejected)]
    {
      RunsExactly(cmd, me, epoch, now, SessionOf(sessions, cmd.session), freshItem);
      ok := Handle(cmd, epoch, now, freshItem, fault);
    }
  }

  function SessionOf(sessions: map<Id, NodeSession>, id: Option<Id>): Option<NodeSession> {
    if id.Some? && id.value in sessions then Some(sessions[id.value]) else None
  }

  // ----- the handler is the protocol's steps, taken without interruption -----

  // What each journal state is reported as: a call that was begun is unknown until its outcome
  // is stored.
  lemma ReportExactly(e: Entry)
    ensures ReportOf(e).RepDelivered? <==> e.stage.JDelivered?
    ensures ReportOf(e).RepUnknown? <==> e.stage.JExecuting? || e.stage.JUnknown?
    ensures ReportOf(e).RepRejected? <==> e.stage.JRejected?
    ensures ReportOf(e).RepConfirmed? <==> e.stage.JConfirmed?
    ensures e.stage.JConfirmed? ==> ReportOf(e).receipt == e.stage.receipt
  {
  }

  // Frames this Node has on its connection.
  function Outgoing(w: World): seq<Up> {
    if w.n.link.Online? && w.n.link.epoch in w.links then w.links[w.n.link.epoch].up else []
  }

  lemma {:induction false} RunsOne(w: World, s: Step, rest: seq<Step>, w': World)
    requires Enabled(w, s) && Runs(Apply(w, s), rest, w')
    ensures Runs(w, [s] + rest, w')
  {
    assert ([s] + rest)[1..] == rest;
  }

  // The handler's command, and how far it is with it.
  predicate Serving(w: World, cmd: Command, stage: Stage) {
    && w.n.link.Online? && w.n.link.epoch in w.links
    && cmd.op in w.n.mem.journal && w.n.mem.journal[cmd.op] == Entry(cmd, stage)
  }

  // What the Node does by itself: nothing changes at the Gateway, and on the connection only
  // frames of the Node are added.
  predicate OnlyNode(w: World, w': World) {
    && w'.me == w.me && w'.g == w.g && w'.n.link == w.n.link && w.n.link.Online?
    && w.n.link.epoch in w.links && w.n.link.epoch in w'.links
    && w'.links == w.links[w.n.link.epoch := w.links[w.n.link.epoch].(up := w'.links[w.n.link.epoch].up)]
  }

  lemma {:induction false} OnlyNodeOn(w: World, w1: World, w2: World)
    requires OnlyNode(w, w1) && OnlyNode(w1, w2)
    ensures OnlyNode(w, w2)
  {
  }

  lemma {:induction false} ProceedOnly(w: World, cmd: Command, stage: Stage, s: Step)
    requires Serving(w, cmd, stage) && !w.n.pc.NIdle? && w.n.pc.op == cmd.op && s.Proceed? && s.sent && !s.fault
    ensures Enabled(w, s) && OnlyNode(w, Apply(w, s))
  {
  }

  lemma {:induction false} SavesDelivered(w: World, cmd: Command, s: Step)
    requires w.n.pc == SaveDelivered(cmd.op) && Serving(w, cmd, JDelivered) && s.Proceed?
    ensures Enabled(w, s) && Apply(w, s) == w.(n := w.n.(disk := w.n.mem, pc := AckDelivered(cmd.op)))
  {
  }

  lemma {:induction false} ReportsDelivered(w: World, cmd: Command, s: Step)
    requires w.n.pc == AckDelivered(cmd.op) && Serving(w, cmd, JDelivered) && s.Proceed? && s.sent
    ensures Enabled(w, s) && Serving(Apply(w, s), cmd, JDelivered) && Apply(w, s).me == w.me && Apply(w, s).native == w.native
    ensures Apply(w, s).n == w.n.(pc := Check(cmd.op)) && OnlyNode(w, Apply(w, s))
    ensures Outgoing(Apply(w, s)) == Outgoing(w) + [Up(false, cmd.op, RepDelivered)]
  {
  }

  lemma {:induction false} BeginsCall(w: World, cmd: Command, s: Step)
    requires w.n.pc == Check(cmd.op) && Serving(w, cmd, JDelivered) && s.Proceed?
    requires Decide(cmd, w.me, w.n.link.epoch, s.now, s.session, s.freshItem).Run?
    ensures var r := Decide(cmd, w.me, w.n.link.epoch, s.now, s.session, s.freshItem).receipt;
      Enabled(w, s) && Apply(w, s) == w.(
        n := w.n.(mem := SetStage(w.n.mem, cmd.op, JExecuting).(calls := w.n.mem.calls + 1), pc := SaveExecuting(cmd.op, r)),
        native := w.native + multiset{cmd.op})
  {
  }

  lemma {:induction false} Refuses(w: World, cmd: Command, s: Step)
    requires w.n.pc == Check(cmd.op) && Serving(w, cmd, JDelivered) && s.Proceed?
    requires Decide(cmd, w.me, w.n.link.epoch, s.now, s.session, s.freshItem).Refuse?
    ensures Enabled(w, s) && Apply(w, s) == w.(n := w.n.(mem := SetStage(w.n.mem, cmd.op, JRejected), pc := SaveRejected(cmd.op)))
  {
  }

  // From the durable write of the rejection to its receipt.
  lemma {:induction false} RejectionEnds(w: World, cmd: Command, s: Step) returns (w': World)
    requires w.n.pc == SaveRejected(cmd.op) && Serving(w, cmd, JRejected) && s.Proceed? && s.sent
    ensures Runs(w, [s, s], w') && w'.n.pc.NIdle? && w'.n.disk == w'.n.mem && w'.n.mem == w.n.mem && w'.native == w.native
    ensures Outgoing(w') == Outgoing(w) + [Up(false, cmd.op, RepRejected)] && OnlyNode(w, w')
  {
    var w1 := Apply(w, s);
    ProceedOnly(w, cmd, JRejected, s.(fault := false));
    w' := Apply(w1, s);
    ProceedOnly(w1, cmd, JRejected, s.(fault := false));
    OnlyNodeOn(w, w1, w');
    assert Runs(w', [], w');
    RunsOne(w1, s, [], w');
    RunsOne(w, s, [s], w');
    assert [s] + [s] == [s, s];
  }

  lemma {:induction false} FiveSteps(w: World, w1: World, w2: World, w3: World, w5: World, s: Step)
    requires Enabled(w, s) && w1 == Apply(w, s) && Enabled(w1, s) && w2 == Apply(w1, s) && Enabled(w2, s) && w3 == Apply(w2, s)
    requires Runs(w3, [s, s], w5)
    ensures Runs(w, [s, s, s, s, s], w5)
  {
    RunsOne(w2, s, [s, s], w5);
    assert [s] + [s, s] == [s, s, s];
    RunsOne(w1, s, [s, s, s], w5);
    assert [s] + [s, s, s] == [s, s, s, s];
    RunsOne(w, s, [s, s, s, s], w5);
    assert [s] + [s, s, s, s] == [s, s, s, s, s];
  }

  lemma {:induction false} HandlerTurnsDown(w: World, cmd: Command, s: Step) returns (w': World)
    requires w.n.pc == SaveDelivered(cmd.op) && Serving(w, cmd, JDelivered) && s.Proceed? && s.sent
    requires Decide(cmd, w.me, w.n.link.epoch, s.now, s.session, s.freshItem).Refuse?
    ensures Runs(w, [s, s, s, s, s], w') && w'.n.pc.NIdle? && w'.n.disk == w'.n.mem
    ensures w'.n.mem == SetStage(w.n.mem, cmd.op, JRejected) && w'.native == w.native
    ensures Outgoing(w') == Outgoing(w) + [Up(false, cmd.op, RepDelivered), Up(false, cmd.op, RepRejected)] && OnlyNode(w, w')
  {
    var w1 := Apply(w, s);
    SavesDelivered(w, cmd, s);
    var w2 := Apply(w1, s);
    ReportsDelivered(w1, cmd, s);
    var w3 := Apply(w2, s);
    Refuses(w2, cmd, s);
    w' := RejectionEnds(w3, cmd, s);
    FiveSteps(w, w1, w2, w3, w', s);
    OnlyNodeOn(w, w1, w2);
    OnlyNodeOn(w, w2, w3);
    OnlyNodeOn(w, w3, w');
    var out := Outgoing(w);
    assert out + [Up(false, cmd.op, RepDelivered)] + [Up(false, cmd.op, RepRejected)]
      == out + [Up(false, cmd.op, RepDelivered), Up(false, cmd.op, RepRejected)];
  }

  // Reading a new command and taking every following step of the handler leaves the journal,
  // the file and the connection as the method above does.
  lemma {:induction false} HandlerRefuses(w: World, cmd: Command, now: int, session: Option<NodeSession>, freshItem: Id)
    requires w.n.pc == SaveDelivered(cmd.op) && w.n.link.Online? && w.n.link.epoch in w.links
    requires cmd.op in w.n.mem.journal && w.n.mem.journal[cmd.op] == Entry(cmd, JDelivered)
    requires Decide(cmd, w.me, w.n.link.epoch, now, session, freshItem).Refuse?
    ensures var s := Proceed(now, session, freshItem, true, false);
      exists w' :: Runs(w, [s, s, s, s, s], w') && w'.n.pc.NIdle? && w'.n.disk == w'.n.mem
        && w'.n.mem == SetStage(w.n.mem, cmd.op, JRejected) && w'.native == w.native
        && Outgoing(w') == Outgoing(w) + [Up(false, cmd.op, RepDelivered), Up(false, cmd.op, RepRejected)] && OnlyNode(w, w')
  {
    var s := Proceed(now, session, freshItem, true, false);
    var w' := HandlerTurnsDown(w, cmd, s);
  }

  // Up to the native call.
  lemma {:induction false} HandlerBegins(w: World, cmd: Command, r: Commands.Receipt, s: Step) returns (w1: World, w2: World, w3: World)
    requires w.n.pc == SaveDelivered(cmd.op) && Serving(w, cmd, JDelivered) && s.Proceed? && s.sent
    requires Decide(cmd, w.me, w.n.link.epoch, s.now, s.session, s.freshItem).Run?
    requires r == Decide(cmd, w.me, w.n.link.epoch, s.now, s.session, s.freshItem).receipt
    ensures Enabled(w, s) && w1 == Apply(w, s) && Enabled(w1, s) && w2 == Apply(w1, s) && Enabled(w2, s) && w3 == Apply(w2, s)
    ensures w3.n.pc == SaveExecuting(cmd.op, r) && Serving(w3, cmd, JExecuting)
    ensures w3.n.mem == SetStage(w.n.mem, cmd.op, JExecuting).(calls := w.n.mem.calls + 1)
    ensures w3.native == w.native + multiset{cmd.op}
    ensures Outgoing(w3) == Outgoing(w) + [Up(false, cmd.op, RepDelivered)] && OnlyNode(w, w3)
  {
    w1 := Apply(w, s);
    SavesDelivered(w, cmd, s);
    w2 := Apply(w1, s);
    ReportsDelivered(w1, cmd, s);
    w3 := Apply(w2, s);
    BeginsCall(w2, cmd, s);
    OnlyNodeOn(w, w1, w2);
    OnlyNodeOn(w, w2, w3);
  }

  lemma {:induction false} HandlerReaches(w: World, cmd: Command, r: Commands.Receipt, s: Step) returns (w': World)
    requires w.n.pc == SaveDelivered(cmd.op) && Serving(w, cmd, JDelivered) && s.Proceed? && s.sent && !s.fault
    requires Decide(cmd, w.me, w.n.link.epoch, s.now, s.session, s.freshItem).Run?
    requires r == Decide(cmd, w.me, w.n.link.epoch, s.now, s.session, s.freshItem).receipt
    ensures Runs(w, [s, s, s, s, s, s, s], w') && w'.n.pc.NIdle? && w'.n.disk == w'.n.mem
    ensures w'.n.mem.journal == w.n.mem.journal[cmd.op := Entry(cmd, JConfirmed(r))] && w'.n.mem.calls == w.n.mem.calls + 1
    ensures w'.native == w.native + multiset{cmd.op}
    ensures Outgoing(w') == Outgoing(w) + [Up(false, cmd.op, RepDelivered), Up(false, cmd.op, RepConfirmed(r))] && OnlyNode(w, w')
  {
    var w1, w2, w3 := HandlerBegins(w, cmd, r, s);
    w' := HandlerEnds(w3, cmd, r, s);
    OnlyNodeOn(w, w3, w');
    SevenSteps(w, w1, w2, w3, w', s);
    var out := Outgoing(w);
    assert out + [Up(false, cmd.op, RepDelivered)] + [Up(false, cmd.op, RepConfirmed(r))]
      == out + [Up(false, cmd.op, RepDelivered), Up(false, cmd.op, RepConfirmed(r))];
  }

  lemma {:induction false} HandlerRuns(w: World, cmd: Command, now: int, session: Option<NodeSession>, freshItem: Id)
    requires w.n.pc == SaveDelivered(cmd.op) && w.n.link.Online? && w.n.link.epoch in w.links
    requires cmd.op in w.n.mem.journal && w.n.mem.journal[cmd.op] == Entry(cmd, JDelivered)
    requires Decide(cmd, w.me, w.n.link.epoch, now, session, freshItem).Run?
    ensures var s, r := Proceed(now, session, freshItem, true, false), Decide(cmd, w.me, w.n.link.epoch, now, session, freshItem).receipt;
      exists w' :: Runs(w, [s, s, s, s, s, s, s], w') && w'.n.pc.NIdle? && w'.n.disk == w'.n.mem
        && w'.n.mem.journal == w.n.mem.journal[cmd.op := Entry(cmd, JConfirmed(r))] && w'.n.mem.calls == w.n.mem.calls + 1
        && w'.native == w.native + multiset{cmd.op}
        && Outgoing(w') == Outgoing(w) + [Up(false, cmd.op, RepDelivered), Up(false, cmd.op, RepConfirmed(r))] && OnlyNode(w, w')
  {
    var s := Proceed(now, session, freshItem, true, false);
    var w' := HandlerReaches(w, cmd, Decide(cmd, w.me, w.n.link.epoch, now, session, freshItem).receipt, s);
  }

  lemma {:induction false} SevenSteps(w: World, w1: World, w2: World, w3: World, w7: World, s: Step)
    requires Enabled(w, s) && w1 == Apply(w, s) && Enabled(w1, s) && w2 == Apply(w1, s) && Enabled(w2, s) && w3 == Apply(w2, s)
    requires Runs(w3, [s, s, s, s], w7)
    ensures Runs(w, [s, s, s, s, s, s, s], w7)
  {
    RunsOne(w2, s, [s, s, s, s], w7);
    assert [s] + [s, s, s, s] == [s, s, s, s, s];
    RunsOne(w1, s, [s, s, s, s, s], w7);
    assert [s] + [s, s, s, s, s] == [s, s, s, s, s, s];
    RunsOne(w, s, [s, s, s, s, s, s], w7);
    assert [s] + [s, s, s, s, s, s] == [s, s, s, s, s, s, s];
  }

  // From the durable write of "executing" to the final receipt.
  lemma {:induction false} HandlerEnds(w: World, cmd: Command, r: Commands.Receipt, s: Step) returns (w': World)
    requires w.n.pc == SaveExecuting(cmd.op, r) && w.n.link.Online? && w.n.link.epoch in w.links
    requires cmd.op in w.n.mem.journal && w.n.mem.journal[cmd.op] == Entry(cmd, JExecuting)
    requires s.Proceed? && s.sent && !s.fault
    ensures Runs(w, [s, s, s, s], w') && w'.n.pc.NIdle? && w'.n.disk == w'.n.mem
    ensures w'.n.mem == SetStage(w.n.mem, cmd.op, JConfirmed(r)) && w'.native == w.native
    ensures Outgoing(w') == Outgoing(w) + [Up(false, cmd.op, RepConfirmed(r))] && OnlyNode(w, w')
  {
    var w1 := Apply(w, s);
    ProceedOnly(w, cmd, JExecuting, s);
    var w2 := Apply(w1, s);
    ProceedOnly(w1, cmd, JExecuting, s);
    var w3 := Apply(w2, s);
    ProceedOnly(w2, cmd, JConfirmed(r), s);
    w' := Apply(w3, s);
    ProceedOnly(w3, cmd, JConfirmed(r), s);
    OnlyNodeOn(w, w1, w2);
    OnlyNodeOn(w, w2, w3);
    OnlyNodeOn(w, w3, w');
    assert Runs(w', [], w');
    RunsOne(w3, s, [], w');
    RunsOne(w2, s, [s], w');
    RunsOne(w1, s, [s, s], w');
    RunsOne(w, s, [s, s, s], w');
    assert [s] + [s, s, s] == [s, s, s, s];
  }

  // ----- the spool -----

  class Spool {
    var numbers: map<Id, nat>
    var events: seq<I.Event>
    var disk: I.Store

    ghost function Memory(): I.Store
      reads this
    {
      I.Store(numbers, events)
    }

    method Save()
      modifies this`disk
      ensures disk == Memory()
    {
      disk := I.Store(numbers, events);
    }

    // `emit`: numbered, appended and saved before it is transmitted.
    method Emit(id: Id, session: Id, body: Id, closed: bool) returns (e: I.Event)
      modifies this
      ensures e == I.Event(id, session, I.Number(old(Memory()), session) + 1, body, closed)
      ensures Memory() == I.Emitted(old(Memory()), e) && disk == Memory()
    {
      var number := (if session in numbers then numbers[session] else 0) + 1;
      e := I.Event(id, session, number, body, closed);
      numbers := numbers[session := number];
      events := events + [e];
      Save();
    }

    // An `events.ack` frame: only the acknowledged stretch of its session leaves the spool.
    method Acknowledged(a: I.Ack)
      modifies this
      ensures Memory() == I.Store(old(numbers), I.Prune(old(events), a)) && disk == Memory()
    {
      var keep: seq<I.Event> := [];
      for i := 0 to |events|
        invariant events == old(events) && numbers == old(numbers)
        invariant keep + I.Prune(events[i..], a) == I.Prune(events, a)
      {
        var e := events[i];
        assert events[i..][1..] == events[i + 1..];
        if e.session != a.session || e.number > a.number { keep := keep + [e]; }
      }
      events := keep;
      Save();
    }
  }
}
