// What each step of the protocol leaves in the operations table, row by row.
module ProtocolEffects {
  import opened Basics
  import opened Commands
  import opened ProtocolWorld
  import opened ProtocolSafety
  import opened ProtocolTheorems

  predicate Over(row: Row) {
    row.state.Confirmed? || row.state.Failed?
  }

  // Every row but this one is as it was, and no other row came.
  predicate OnlyRow(a: map<Id, Row>, b: map<Id, Row>, op: Id) {
    b.Keys == a.Keys && forall o :: o in a && o != op ==> b[o] == a[o]
  }

  // ----- reports -----

  // What a report makes of the row it names.
  predicate Taken(row: Row, m: Up, effects: bool, row': Row) {
    if Over(row) then row' == row
    else
      match m.report
      case NotSeen => row' == Row(row.cmd, OpState.Failed, NotSent, None)
      case RepRejected => row' == Row(row.cmd, OpState.Failed, NotSent, None)
      case RepUnknown => row' == Row(row.cmd, Reconciling, row.outbox, None)
      case RepDelivered => row' == Row(row.cmd, Delivered, OutDelivered, None)
      case RepConfirmed(r) => row' == if effects then Row(row.cmd, Confirmed, OutDelivered, Some(r)) else row
  }

  // A report that can be: of this connection or asked for, with a receipt that matches, and
  // not denying what was delivered.
  predicate Plausible(row: Row, me: Identity, e: nat, m: Up) {
    && (!m.query ==> row.cmd.epoch == e)
    && (m.report.NotSeen? ==> m.query && !row.outbox.OutDelivered?)
    && (m.report.RepConfirmed? ==> ReceiptMatches(row.cmd, me.node, m.report.receipt))
  }

  lemma {:induction false} PlausibleTaken(g: Gateway, me: Identity, e: nat, m: Up, effects: bool)
    requires m.op in g.rows && (!Over(g.rows[m.op]) ==> Plausible(g.rows[m.op], me, e, m))
    ensures var g' := Acknowledge(g, me, e, m, effects).0;
      g' == g.(rows := g'.rows) && OnlyRow(g.rows, g'.rows, m.op) && Taken(g.rows[m.op], m, effects, g'.rows[m.op])
  {
  }

  lemma {:induction false} HonestPlausible(w: World, e: nat, m: Up)
    requires Inv(w) && ReportOk(w, e, m)
    ensures m.op in w.g.rows && Plausible(w.g.rows[m.op], w.me, e, m)
  {
    assert RowOk(w, m.op);
    if m.op in w.n.disk.journal { assert EntryOk(w, m.op, w.n.disk.journal[m.op]); }
    DiskInMemory(w.n);
  }

  lemma {:induction false} ReportTaken(w: World, e: nat, m: Up, effects: bool)
    requires Inv(w) && ReportOk(w, e, m)
    ensures var g := Acknowledge(w.g, w.me, e, m, effects).0;
      && m.op in w.g.rows && g == w.g.(rows := g.rows) && OnlyRow(w.g.rows, g.rows, m.op)
      && Taken(w.g.rows[m.op], m, effects, g.rows[m.op])
  {
    HonestPlausible(w, e, m);
    PlausibleTaken(w.g, w.me, e, m, effects);
  }

  // A report read from the current connection settles, delivers or doubts exactly its own
  // operation; a confirmation that goes through stores the Node's receipt.
  lemma {:induction false} ReceiveLeaves(w: World, e: nat, effects: bool)
    requires Reachable(w) && Enabled(w, Receive(e, effects)) && w.g.registered == Some(e)
    ensures var m, w' := w.links[e].up[0], Apply(w, Receive(e, effects));
      && m.op in w.g.rows && OnlyRow(w.g.rows, w'.g.rows, m.op)
      && Taken(w.g.rows[m.op], m, effects, w'.g.rows[m.op])
      && w' == w.(g := w.g.(rows := w'.g.rows), links := w.links[e := w.links[e].(up := w.links[e].up[1..])])
  {
    ReachableInv(w);
    var m := w.links[e].up[0];
    assert m in w.links[e].up && ReportOk(w, e, m);
    ReportTaken(w, e, m, effects);
  }

  // A frame of any other connection changes no row.
  lemma {:induction false} StaleReport(w: World, e: nat, effects: bool)
    requires Enabled(w, Receive(e, effects)) && w.g.registered != Some(e)
    ensures Apply(w, Receive(e, effects)).g == w.g
  {
  }

  // ----- the Gateway's own steps -----

  // A new operation, and nothing else, with its command still to be written.
  lemma {:induction false} AdmitLeaves(w: World, cmd: Command)
    requires Enabled(w, Admit(cmd))
    ensures Apply(w, Admit(cmd)).g.rows == w.g.rows[cmd.op := Row(cmd, Accepted, Pending, None)]
    ensures cmd.op !in w.g.rows && w.g.registered == Some(cmd.epoch)
  {
  }

  lemma {:induction false} DispatchRow(w: World, now: int, online: bool)
    requires w.g.pc.Admitted? && w.g.pc.op in w.g.rows && w.g.rows[w.g.pc.op].state.Accepted? && w.g.rows[w.g.pc.op].outbox.Pending?
    ensures var op, g' := w.g.pc.op, DoDispatch(w, now, online).g;
      && OnlyRow(w.g.rows, g'.rows, op)
      && var row := w.g.rows[op];
         if online && w.g.registered == Some(row.cmd.epoch) && now < row.cmd.deadline
         then g'.rows[op] == Row(row.cmd, Accepted, Dispatching, row.result) && g'.pc == Intended(op)
         else g'.rows[op] == Row(row.cmd, OpState.Failed, NotSent, None) && g'.pc == Idle
  {
  }

  // Before the frame is handed over, the intent is stored, or the operation fails unsent.
  lemma {:induction false} DispatchLeaves(w: World, now: int, online: bool)
    requires Reachable(w) && Enabled(w, Dispatch(now, online)) && w.g.pc.op in w.g.rows
    ensures var op, w' := w.g.pc.op, Apply(w, Dispatch(now, online));
      && OnlyRow(w.g.rows, w'.g.rows, op)
      && var row := w.g.rows[op];
         if online && w.g.registered == Some(row.cmd.epoch) && now < row.cmd.deadline
         then w'.g.rows[op] == Row(row.cmd, Accepted, Dispatching, row.result) && w'.g.pc == Intended(op)
         else w'.g.rows[op] == Row(row.cmd, OpState.Failed, NotSent, None) && w'.g.pc == Idle
  {
    ReachableInv(w);
    assert RowOk(w, w.g.pc.op);
    DispatchRow(w, now, online);
  }

  lemma {:induction false} EnqueueRow(w: World, fits: bool)
    requires w.g.pc.Intended? && w.g.pc.op in w.g.rows && (w.g.registered.Some? ==> w.g.registered.value in w.links)
    ensures var op, w' := w.g.pc.op, DoEnqueue(w, fits);
      && var row := w.g.rows[op];
         if fits && w.g.registered == Some(row.cmd.epoch) then
           && w'.g == w.g.(pc := Idle) && row.cmd.epoch in w.links
           && w'.links == w.links[row.cmd.epoch := w.links[row.cmd.epoch].(queue := w.links[row.cmd.epoch].queue + [Deliver(row.cmd)])]
         else
           && OnlyRow(w.g.rows, w'.g.rows, op) && w'.g.rows[op] == Row(row.cmd, OpState.Failed, NotSent, None)
           && w'.g.registered == None && w'.links == w.links
  {
  }

  // The frame enters the queue of the connection it was admitted for, or the operation fails
  // and the connection is given up.
  lemma {:induction false} EnqueueLeaves(w: World, fits: bool)
    requires Reachable(w) && Enabled(w, EnqueueCommand(fits)) && w.g.pc.op in w.g.rows
    ensures var op, w' := w.g.pc.op, Apply(w, EnqueueCommand(fits));
      && var row := w.g.rows[op];
         if fits && w.g.registered == Some(row.cmd.epoch) then
           && w'.g == w.g.(pc := Idle) && row.cmd.epoch in w.links
           && w'.links == w.links[row.cmd.epoch := w.links[row.cmd.epoch].(queue := w.links[row.cmd.epoch].queue + [Deliver(row.cmd)])]
         else
           && OnlyRow(w.g.rows, w'.g.rows, op) && w'.g.rows[op] == Row(row.cmd, OpState.Failed, NotSent, None)
           && w'.g.registered == None && w'.links == w.links
  {
    ReachableInv(w);
    assert Shape(w);
    EnqueueRow(w, fits);
  }

  lemma {:induction false} WriteRow(w: World, e: nat, now: int, online: bool, stored: bool)
    requires e in w.links && w.links[e].held != []
    requires w.links[e].held[0].Deliver? ==>
      var cmd := w.links[e].held[0].cmd; cmd.op in w.g.rows && w.g.rows[cmd.op].cmd == cmd
    ensures var d, w' := w.links[e].held[0], DoWrite(w, e, now, online, stored);
      if w.g.registered != Some(e) then w'.g == w.g && w'.links[e].down == w.links[e].down
      else if d.Deliver? && (d.cmd.deadline <= now || !online) then
        && w'.links[e].down == w.links[e].down
        && (if stored then OnlyRow(w.g.rows, w'.g.rows, d.cmd.op) && w'.g.rows[d.cmd.op] == Row(d.cmd, OpState.Failed, NotSent, None)
            else w'.g == w.g)
      else w'.g == w.g && w'.links[e].down == w.links[e].down + [d]
  {
  }

  // The writer hands the frame to the network, except a command that came too late, which
  // fails, and the frames of a replaced connection.
  lemma {:induction false} WriteLeaves(w: World, e: nat, now: int, online: bool, stored: bool)
    requires Reachable(w) && Enabled(w, WriteHeld(e, now, online, stored))
    ensures var d, w' := w.links[e].held[0], Apply(w, WriteHeld(e, now, online, stored));
      if w.g.registered != Some(e) then w'.g == w.g && w'.links[e].down == w.links[e].down
      else if d.Deliver? && (d.cmd.deadline <= now || !online) then
        && w'.links[e].down == w.links[e].down && d.cmd.op in w.g.rows
        && (if stored then OnlyRow(w.g.rows, w'.g.rows, d.cmd.op) && w'.g.rows[d.cmd.op] == Row(d.cmd, OpState.Failed, NotSent, None)
            else w'.g == w.g)
      else w'.g == w.g && w'.links[e].down == w.links[e].down + [d]
  {
    ReachableInv(w);
    var d := w.links[e].held[0];
    assert d in Path(w.links[e]) && FrameOk(w, e, d);
    WriteRow(w, e, now, online, stored);
  }

  // Past its deadline, after a restart or a revocation an open operation that was never
  // written fails; any other is in doubt, and expiry asks its journal.
  lemma {:induction false} ExpireLeaves(w: World, op: Id, now: int, fits: bool)
    requires Enabled(w, Expire(op, now, fits))
    ensures var row, w' := w.g.rows[op], Apply(w, Expire(op, now, fits));
      && OnlyRow(w.g.rows, w'.g.rows, op)
      && w'.g.rows[op] == (
           if row.outbox.Pending? then Row(row.cmd, OpState.Failed, NotSent, None)
           else Row(row.cmd, Reconciling, if row.outbox.OutDelivered? then OutDelivered else Uncertain, None))
      && (!row.outbox.Pending? && fits && w.g.registered.Some? && w.g.registered.value in w.links ==>
            var e := w.g.registered.value; w'.links == w.links[e := w.links[e].(queue := w.links[e].queue + [Query(op)])])
  {
  }

  lemma {:induction false} RecoverLeaves(w: World, op: Id)
    requires Enabled(w, Recover(op))
    ensures var row, w' := w.g.rows[op], Apply(w, Recover(op));
      && OnlyRow(w.g.rows, w'.g.rows, op)
      && w'.g.rows[op] == (
           if row.outbox.Pending? then Row(row.cmd, OpState.Failed, NotSent, None)
           else Row(row.cmd, Reconciling, if row.outbox.OutDelivered? then OutDelivered else Uncertain, None))
  {
  }

  lemma {:induction false} InvalidateLeaves(w: World, op: Id)
    requires Enabled(w, Invalidate(op))
    ensures var row, w' := w.g.rows[op], Apply(w, Invalidate(op));
      && OnlyRow(w.g.rows, w'.g.rows, op)
      && w'.g.rows[op] == (
           if row.outbox.Pending? then Row(row.cmd, OpState.Failed, NotSent, None) else Row(row.cmd, Reconciling, row.outbox, None))
  {
  }
}
