// What the command protocol guarantees in every run of Gateway and Node, with crashes of
// either side, reconnections, expiries, lost frames and a revoked device.
module ProtocolTheorems {
  import opened Basics
  import opened Commands
  import opened ProtocolWorld
  import opened ProtocolSafety

  predicate Settled(g: Gateway, op: Id) {
    op in g.rows && !Open(g.rows[op].state)
  }

  lemma ReachableInv(w: World)
    requires Reachable(w)
    ensures Inv(w)
  {
    var steps :| Runs(Initial(w.me), steps, w);
    InitialInv(w.me);
    RunKeeps(Initial(w.me), steps, w);
  }

  lemma SettledHandler(w: World, s: Step, op: Id)
    requires Enabled(w, s) && Settled(w.g, op) && BootOk(w.g) && !Dispatching'(w.g, op)
    requires s.Admit? || s.Dispatch? || s.EnqueueCommand? || s.AbortDispatch? || s.Expire? || s.Recover? || s.Boot? || s.Invalidate?
    ensures op in Apply(w, s).g.rows && Apply(w, s).g.rows[op] == w.g.rows[op]
  {
  }

  lemma SettledWrite(w: World, s: Step, op: Id)
    requires Inv(w) && Enabled(w, s) && Settled(w.g, op) && s.WriteHeld?
    ensures op in Apply(w, s).g.rows && Apply(w, s).g.rows[op] == w.g.rows[op]
  {
    if w.g.registered == Some(s.link) && w.links[s.link].held[0].Deliver? { HeldIsOpen(w, s.link); }
  }

  lemma SettledReport(w: World, e: nat, m: Up, effects: bool, op: Id)
    requires Inv(w) && ReportOk(w, e, m) && Settled(w.g, op)
    ensures var g := Acknowledge(w.g, w.me, e, m, effects).0; op in g.rows && g.rows[op] == w.g.rows[op]
  {
    if m.op == op { ReportAccepted(w, e, m, effects); }
  }

  lemma SettledReceive(w: World, s: Step, op: Id)
    requires Inv(w) && Enabled(w, s) && Settled(w.g, op) && s.Receive?
    ensures op in Apply(w, s).g.rows && Apply(w, s).g.rows[op] == w.g.rows[op]
  {
    var e, m := s.link, w.links[s.link].up[0];
    assert m in w.links[e].up && ReportOk(w, e, m);
    SettledReport(w, e, m, s.effects, op);
    assert Apply(w, s).g == w.g || Apply(w, s).g == Acknowledge(w.g, w.me, e, m, s.effects).0;
  }

  lemma NodeLeavesRows(w: World, s: Step)
    requires Enabled(w, s)
    requires s.Read? || s.Proceed? || s.Hangup? || s.CrashNode? || s.Pop? || s.StopPeer? || s.Connect? || s.Revoke? || s.CrashGateway?
    ensures Apply(w, s).g.rows == w.g.rows
  {
  }

  // Confirmed and failed are absorbing although the update itself has no guard.
  lemma SettledStep(w: World, s: Step, op: Id)
    requires Inv(w) && Enabled(w, s) && Settled(w.g, op)
    ensures op in Apply(w, s).g.rows && Apply(w, s).g.rows[op] == w.g.rows[op]
  {
    if s.WriteHeld? {
      SettledWrite(w, s, op);
    } else if s.Receive? {
      SettledReceive(w, s, op);
    } else if s.Read? || s.Proceed? || s.Hangup? || s.CrashNode? || s.Pop? || s.StopPeer? || s.Connect? || s.Revoke? || s.CrashGateway? {
      NodeLeavesRows(w, s);
    } else {
      assert RowOk(w, op);
      SettledHandler(w, s, op);
    }
  }

  lemma {:induction false} SettledRun(w: World, steps: seq<Step>, w': World, op: Id)
    requires Inv(w) && Runs(w, steps, w') && Settled(w.g, op)
    ensures Inv(w') && op in w'.g.rows && w'.g.rows[op] == w.g.rows[op]
    decreases |steps|
  {
    if steps != [] {
      StepKeeps(w, steps[0]);
      SettledStep(w, steps[0], op);
      SettledRun(Apply(w, steps[0]), steps[1..], w', op);
    }
  }

  // No operation is ever handed to the native Agent twice.
  lemma AtMostOneCall(w: World, op: Id)
    requires Reachable(w)
    ensures w.native[op] <= 1
  {
    ReachableInv(w);
  }

  // An operation reported failed was not executed, and never will be.
  lemma FailedNeverRuns(w: World, op: Id, steps: seq<Step>, w': World)
    requires Reachable(w) && op in w.g.rows && w.g.rows[op].state.Failed?
    requires Runs(w, steps, w')
    ensures op in w'.g.rows && w'.g.rows[op].state.Failed? && w'.native[op] == 0
  {
    ReachableInv(w);
    SettledRun(w, steps, w', op);
    assert RowOk(w', op);
    DiskInMemory(w'.n);
    if op in w'.n.disk.journal { assert EntryOk(w', op, w'.n.disk.journal[op]); }
  }

  // An operation reported confirmed was executed exactly once, its receipt agrees with the
  // command, and neither changes afterwards.
  lemma ConfirmedRanOnce(w: World, op: Id, steps: seq<Step>, w': World)
    requires Reachable(w) && op in w.g.rows && w.g.rows[op].state.Confirmed?
    requires Runs(w, steps, w')
    ensures op in w'.g.rows && w'.g.rows[op] == w.g.rows[op] && w'.native[op] == 1
    ensures w'.g.rows[op].result.Some? && ReceiptMatches(w'.g.rows[op].cmd, w'.me.node, w'.g.rows[op].result.value)
  {
    ReachableInv(w);
    SettledRun(w, steps, w', op);
    assert RowOk(w', op);
    assert EntryOk(w', op, w'.n.disk.journal[op]);
  }

  // The Node's counter of native calls is the number of journal entries whose call was
  // begun, in memory and on disk.
  lemma CallsMatchJournal(w: World)
    requires Reachable(w)
    ensures w.n.mem.calls == |ExecutedOps(w.n.mem.journal)|
    ensures w.n.disk.calls == |ExecutedOps(w.n.disk.journal)|
    ensures forall op :: op in ExecutedOps(w.n.mem.journal) ==> w.native[op] == 1
  {
    ReachableInv(w);
    forall op | op in ExecutedOps(w.n.mem.journal) ensures w.native[op] == 1 {
      assert EntryOk(w, op, w.n.mem.journal[op]);
    }
  }

  // No report of an honest Node is ever refused: in particular "delivered, then not seen"
  // does not occur, no acknowledgement crosses an epoch, and a receipt repeated after
  // confirmation is the stored one.
  lemma NoConflict(w: World, e: nat, effects: bool)
    requires Reachable(w) && e in w.links && w.links[e].up != [] && w.g.registered == Some(e)
    ensures Acknowledge(w.g, w.me, e, w.links[e].up[0], effects).1 in {Handled, RolledBack}
  {
    ReachableInv(w);
    assert w.links[e].up[0] in w.links[e].up && ReportOk(w, e, w.links[e].up[0]);
    ReportAccepted(w, e, w.links[e].up[0], effects);
  }

  // At most one create, send, cancel, respond or native operation of a session is open.
  lemma OneOpenControl(w: World, o1: Id, o2: Id)
    requires Reachable(w) && o1 in w.g.rows && o2 in w.g.rows
    requires w.g.rows[o1].cmd.session.Some? && w.g.rows[o1].cmd.session == w.g.rows[o2].cmd.session
    requires Control(w.g.rows[o1].cmd.kind) && Control(w.g.rows[o2].cmd.kind)
    requires Open(w.g.rows[o1].state) && Open(w.g.rows[o2].state)
    ensures o1 == o2
  {
    ReachableInv(w);
  }
}
