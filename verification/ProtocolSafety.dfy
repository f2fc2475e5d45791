// The inductive invariant of the command protocol and what it buys.
module ProtocolSafety {
  import opened Basics
  import opened Commands
  import opened ProtocolWorld

  // ----- vocabulary -----

  predicate Names(d: Down, op: Id) {
    (d.Deliver? && d.cmd.op == op) || (d.Query? && d.op == op)
  }

  ghost predicate Carries(s: seq<Down>, op: Id) {
    exists d :: d in s && d.Deliver? && d.cmd.op == op
  }

  // A command is the first frame of a connection that names its operation: it is never
  // duplicated, and a query about it can only follow it.
  ghost predicate Ordered(s: seq<Down>) {
    forall i, j :: 0 <= i < j < |s| && s[j].Deliver? ==> !Names(s[i], s[j].cmd.op)
  }

  predicate Dispatching'(g: Gateway, op: Id) {
    g.pc == Admitted(op) || g.pc == Intended(op)
  }

  predicate Live(w: World, e: nat) {
    w.g.registered == Some(e) || NodeAt(w.n, e)
  }

  // No byte of this command was ever handed to any connection.
  ghost predicate Unsent(w: World, op: Id) {
    op !in w.n.mem.journal && forall e :: e in w.links ==> !Carries(Path(w.links[e]), op)
  }

  // The command can no longer reach the journal: it is absent there, is not being
  // dispatched, and is on no connection that either side still uses.
  ghost predicate Gone(w: World, op: Id) {
    && op !in w.n.mem.journal
    && !Dispatching'(w.g, op)
    && forall e :: e in w.links && Live(w, e) ==> !Carries(Path(w.links[e]), op)
  }

  predicate Executed(e: Entry) {
    e.stage.JExecuting? || e.stage.JConfirmed? || e.stage.JUnknown?
  }

  function ExecutedOps(journal: map<Id, Entry>): set<Id> {
    set o | o in journal && Executed(journal[o])
  }

  // ----- the invariant, part by part -----

  ghost predicate Shape(w: World) {
    && (forall e :: e in w.links ==> e <= w.g.epoch)
    && (w.g.registered.Some? ==> w.g.registered.value in w.links && w.g.registered.value == w.g.epoch)
    && (!w.n.link.Offline? ==> w.n.link.epoch in w.links)
    && (w.g.registered.Some? && !w.n.link.Offline? ==> w.g.registered.value == w.n.link.epoch)
    && (forall o :: o in w.g.rows ==> w.g.rows[o].cmd.op == o && w.g.rows[o].cmd.epoch <= w.g.epoch)
    && (!w.n.pc.NIdle? ==>
          && w.n.link.Online? && w.n.pc.op in w.n.mem.journal
          && w.n.mem.journal[w.n.pc.op].cmd.epoch == w.n.link.epoch)
  }

  predicate FrameOk(w: World, e: nat, d: Down) {
    match d
    case Ready => true
    case Query(op) => op in w.g.rows && w.g.rows[op].cmd.epoch <= e && !Dispatching'(w.g, op)
    case Deliver(cmd) =>
      && cmd.op in w.g.rows && w.g.rows[cmd.op].cmd == cmd && cmd.epoch == e
      && cmd.op !in w.n.mem.journal && !Dispatching'(w.g, cmd.op)
  }

  ghost predicate Wire(w: World) {
    forall e :: e in w.links ==>
      && Ordered(Path(w.links[e]))
      && forall d :: d in Path(w.links[e]) ==> FrameOk(w, e, d)
  }

  ghost predicate ReportOk(w: World, e: nat, m: Up) {
    && m.op in w.g.rows && !Dispatching'(w.g, m.op)
    && (!m.query ==> w.g.rows[m.op].cmd.epoch == e)
    && match m.report
       case NotSeen => m.query && Gone(w, m.op)
       case RepDelivered => m.op in w.n.disk.journal
       case RepUnknown => m.op in w.n.disk.journal
       case RepRejected => m.op in w.n.disk.journal && w.n.disk.journal[m.op].stage.JRejected?
       case RepConfirmed(r) => m.op in w.n.disk.journal && w.n.disk.journal[m.op].stage == JConfirmed(r)
  }

  ghost predicate Reports(w: World) {
    forall e :: e in w.links ==> forall m :: m in w.links[e].up ==> ReportOk(w, e, m)
  }

  // How far the disk lags behind the memory of the Node.
  predicate Saved(n: Node) {
    match n.pc
    case NIdle => n.mem == n.disk
    case SaveDelivered(op) =>
      && op !in n.disk.journal && op in n.mem.journal && n.mem.journal[op].stage.JDelivered?
      && n.mem == n.disk.(journal := n.disk.journal[op := n.mem.journal[op]])
    case AckDelivered(op) => n.mem == n.disk && op in n.mem.journal && n.mem.journal[op].stage.JDelivered?
    case Check(op) => n.mem == n.disk && op in n.mem.journal && n.mem.journal[op].stage.JDelivered?
    case SaveRejected(op) =>
      && op in n.disk.journal && n.disk.journal[op].stage.JDelivered?
      && n.mem == SetStage(n.disk, op, JRejected)
    case SaveExecuting(op, r) =>
      && op in n.disk.journal && n.disk.journal[op].stage.JDelivered?
      && n.mem == SetStage(n.disk, op, JExecuting).(calls := n.disk.calls + 1)
    case Finish(op, r) => n.mem == n.disk && op in n.mem.journal && n.mem.journal[op].stage.JExecuting?
    case SaveConfirmed(op) =>
      && op in n.disk.journal && n.disk.journal[op].stage.JExecuting?
      && op in n.mem.journal && n.mem.journal[op].stage.JConfirmed?
      && n.mem == SetStage(n.disk, op, n.mem.journal[op].stage)
    case AckFinal(op) => n.mem == n.disk && op in n.mem.journal && (n.mem.journal[op].stage.JConfirmed? || n.mem.journal[op].stage.JRejected?)
  }

  predicate EntryOk(w: World, op: Id, e: Entry) {
    && op in w.g.rows && e.cmd == w.g.rows[op].cmd && !Dispatching'(w.g, op)
    && (e.stage.JConfirmed? ==> ReceiptMatches(e.cmd, w.me.node, e.stage.receipt))
    && (Executed(e) ==> w.native[op] == 1)
    && (e.stage.JRejected? ==> w.native[op] == 0)
  }

  // Journal entries against the native calls that were really begun.
  ghost predicate Journals(w: World) {
    && Saved(w.n)
    && (forall op :: op in w.n.mem.journal ==> EntryOk(w, op, w.n.mem.journal[op]))
    && (forall op :: op in w.n.disk.journal ==> EntryOk(w, op, w.n.disk.journal[op]))
    && (forall op :: w.native[op] > 0 ==> op in w.n.disk.journal && w.native[op] == 1)
    && (match w.n.pc
        case SaveDelivered(op) => w.native[op] == 0
        case AckDelivered(op) => w.native[op] == 0
        case Check(op) => w.native[op] == 0
        case SaveExecuting(op, r) => ReceiptMatches(w.n.mem.journal[op].cmd, w.me.node, r)
        case Finish(op, r) => ReceiptMatches(w.n.mem.journal[op].cmd, w.me.node, r)
        case _ => true)
    && w.n.mem.calls == |ExecutedOps(w.n.mem.journal)|
    && w.n.disk.calls == |ExecutedOps(w.n.disk.journal)|
  }

  ghost predicate RowOk(w: World, op: Id)
    requires op in w.g.rows
  {
    var row := w.g.rows[op];
    && (row.state.Confirmed? ==>
          op in w.n.disk.journal && row.result.Some? && w.n.disk.journal[op].stage == JConfirmed(row.result.value))
    && (row.state.Failed? ==>
          Gone(w, op) || (op in w.n.disk.journal && w.n.disk.journal[op].stage.JRejected?))
    && (row.outbox.OutDelivered? ==> op in w.n.disk.journal)
    && (row.outbox.Pending? ==> Unsent(w, op))
    && (Dispatching'(w.g, op) ==> Unsent(w, op) && row.state.Accepted?)
    && (w.g.pc == Admitted(op) ==> row.outbox.Pending?)
    && (w.g.pc == Intended(op) ==> row.outbox.Dispatching?)
  }

  ghost predicate RowsOk(w: World) {
    forall op :: op in w.g.rows ==> RowOk(w, op)
  }

  ghost predicate OneControl(g: Gateway) {
    forall o1, o2 :: o1 in g.rows && o2 in g.rows && o1 != o2
      && g.rows[o1].cmd.session.Some? && g.rows[o1].cmd.session == g.rows[o2].cmd.session
      && Control(g.rows[o1].cmd.kind) && Control(g.rows[o2].cmd.kind)
      ==> !(Open(g.rows[o1].state) && Open(g.rows[o2].state))
  }

  predicate BootOk(g: Gateway) {
    g.pc.Booting? ==> forall o :: o in g.pc.todo ==> o in g.rows && Open(g.rows[o].state)
  }

  ghost predicate Inv(w: World) {
    Shape(w) && Wire(w) && Reports(w) && Journals(w) && RowsOk(w) && OneControl(w.g) && BootOk(w.g)
  }

  lemma InitialInv(me: Identity)
    ensures Inv(Initial(me))
  {
    assert ExecutedOps(map[]) == {};
  }

  // ----- steps that put no command and no report on the wire -----

  // w' differs from w by frames and reports removed, queries added, connections dropped,
  // and changed states of existing rows; the Node's stores are untouched.
  ghost predicate Fewer(w: World, w': World) {
    && w'.me == w.me && w'.native == w.native
    && w'.n.mem == w.n.mem && w'.n.disk == w.n.disk
    && (|| (w'.n.pc == w.n.pc && (w'.n.link == w.n.link || (w.n.link.Dialing? && w'.n.link == Online(w.n.link.epoch))))
        || (w'.n.link.Offline? && w'.n.pc.NIdle? && w.n.mem == w.n.disk))
    && w'.links.Keys == w.links.Keys
    && (forall e :: e in w.links ==> Shorter(w', e, w.links[e], w'.links[e]))
    && (w'.g.registered == w.g.registered || w'.g.registered.None?)
    && w.g.epoch <= w'.g.epoch && (w'.g.registered.Some? ==> w'.g.epoch == w.g.epoch)
    && w'.g.rows.Keys == w.g.rows.Keys
    && (forall o :: o in w.g.rows ==> w'.g.rows[o].cmd == w.g.rows[o].cmd)
    && (forall o :: Dispatching'(w'.g, o) ==> Dispatching'(w.g, o))
  }

  ghost predicate Shorter(w': World, e: nat, l: Link, l': Link) {
    && (Ordered(Path(l)) ==> Ordered(Path(l')))
    && (forall d :: d in Path(l') ==> d in Path(l) || (!d.Deliver? && FrameOk(w', e, d)))
    && (forall m :: m in l'.up ==> m in l.up)
  }

  lemma ShorterRefl(w': World, e: nat, l: Link)
    ensures Shorter(w', e, l, l)
  {
  }

  lemma FewerGone(w: World, w': World, op: Id)
    requires Fewer(w, w')
    ensures Gone(w, op) ==> Gone(w', op)
    ensures Unsent(w, op) ==> Unsent(w', op)
  {
    forall e | e in w'.links && Carries(Path(w'.links[e]), op)
      ensures Carries(Path(w.links[e]), op)
    {
      assert Shorter(w', e, w.links[e], w'.links[e]);
    }
    assert forall e :: Live(w', e) ==> Live(w, e);
  }

  lemma FewerWire(w: World, w': World)
    requires Fewer(w, w') && Wire(w)
    ensures Wire(w')
  {
    forall e | e in w'.links
      ensures Ordered(Path(w'.links[e])) && forall d :: d in Path(w'.links[e]) ==> FrameOk(w', e, d)
    {
      assert Shorter(w', e, w.links[e], w'.links[e]);
      forall d | d in Path(w'.links[e]) ensures FrameOk(w', e, d) {
        if d in Path(w.links[e]) { assert FrameOk(w, e, d); }
      }
    }
  }

  lemma FewerReports(w: World, w': World)
    requires Fewer(w, w') && Reports(w)
    ensures Reports(w')
  {
    forall e, m | e in w'.links && m in w'.links[e].up ensures ReportOk(w', e, m) {
      assert Shorter(w', e, w.links[e], w'.links[e]);
      assert ReportOk(w, e, m);
      FewerGone(w, w', m.op);
    }
  }

  lemma FewerJournals(w: World, w': World)
    requires Fewer(w, w') && Journals(w)
    ensures Journals(w')
  {
    forall op | op in w'.n.mem.journal ensures EntryOk(w', op, w'.n.mem.journal[op]) {
      assert EntryOk(w, op, w.n.mem.journal[op]);
    }
    forall op | op in w'.n.disk.journal ensures EntryOk(w', op, w'.n.disk.journal[op]) {
      assert EntryOk(w, op, w.n.disk.journal[op]);
    }
  }

  lemma FewerKeeps(w: World, w': World)
    requires Inv(w) && Fewer(w, w')
    requires forall o :: o in w.g.rows ==> (w'.g.rows[o] == w.g.rows[o] && (Dispatching'(w'.g, o) ==> w'.g.pc == w.g.pc)) || RowOk(w', o)
    requires forall o :: o in w.g.rows && Open(w'.g.rows[o].state) ==> Open(w.g.rows[o].state)
    requires BootOk(w'.g)
    ensures Inv(w')
  {
    FewerWire(w, w');
    FewerReports(w, w');
    FewerJournals(w, w');
    forall o | o in w'.g.rows ensures RowOk(w', o) {
      FewerGone(w, w', o);
      assert RowOk(w, o);
    }
  }

  // The same when no connection changes at all.
  lemma TablesKeep(w: World, w': World)
    requires Inv(w) && w'.links == w.links && w'.n == w.n && w'.me == w.me && w'.native == w.native
    requires w'.g.registered == w.g.registered || w'.g.registered.None?
    requires w.g.epoch <= w'.g.epoch && (w'.g.registered.Some? ==> w'.g.epoch == w.g.epoch)
    requires w'.g.rows.Keys == w.g.rows.Keys
    requires forall o :: o in w.g.rows ==> w'.g.rows[o].cmd == w.g.rows[o].cmd
    requires forall o :: Dispatching'(w'.g, o) ==> Dispatching'(w.g, o)
    requires forall o :: o in w.g.rows ==> (w'.g.rows[o] == w.g.rows[o] && (Dispatching'(w'.g, o) ==> w'.g.pc == w.g.pc)) || RowOk(w', o)
    requires forall o :: o in w.g.rows && Open(w'.g.rows[o].state) ==> Open(w.g.rows[o].state)
    requires BootOk(w'.g)
    ensures Inv(w')
  {
    forall e | e in w.links ensures Shorter(w', e, w.links[e], w'.links[e]) {
      ShorterRefl(w', e, w.links[e]);
    }
    FewerKeeps(w, w');
  }

  // Only the connection, the handler's place or the revocation mark changes.
  lemma HandlerMoves(w: World, w': World, g: Gateway)
    requires Inv(w) && w' == w.(g := g) && g.rows == w.g.rows
    requires g.registered == w.g.registered || g.registered.None?
    requires w.g.epoch <= g.epoch && (g.registered.Some? ==> g.epoch == w.g.epoch)
    requires g.pc == w.g.pc || g.pc.Idle?
    ensures Inv(w')
  {
    TablesKeep(w, w');
  }

  lemma QuietKeeps(w: World, s: Step)
    requires Inv(w) && Enabled(w, s)
    requires s.StopPeer? || s.AbortDispatch? || s.Boot? || s.Revoke?
    ensures Inv(Apply(w, s))
  {
    HandlerMoves(w, Apply(w, s), Apply(w, s).g);
  }

  lemma HangupKeeps(w: World)
    requires Inv(w) && Enabled(w, Hangup)
    ensures Inv(Apply(w, Hangup))
  {
    var w' := Apply(w, Hangup);
    forall e | e in w.links ensures Shorter(w', e, w.links[e], w'.links[e]) {
      ShorterRefl(w', e, w.links[e]);
    }
    FewerKeeps(w, w');
  }

  lemma PopShortens(w: World, s: Step)
    requires Enabled(w, s) && s.Pop?
    ensures Fewer(w, Apply(w, s)) && Apply(w, s).g == w.g
  {
    var l := w.links[s.link];
    assert Path(l) == Path(l.(held := [l.queue[0]], queue := l.queue[1..]));
  }

  lemma PopKeeps(w: World, s: Step)
    requires Inv(w) && Enabled(w, s) && s.Pop?
    ensures Inv(Apply(w, s))
  {
    PopShortens(w, s);
    FewerKeeps(w, Apply(w, s));
  }

  // ----- steps that settle a row -----

  lemma DiskInMemory(n: Node)
    requires Saved(n)
    ensures n.disk.journal.Keys <= n.mem.journal.Keys
  {
  }

  // One row changes, and perhaps the handler moves on.
  lemma RowStep(w: World, w': World, op: Id, row: Row)
    requires Inv(w) && op in w.g.rows && row.cmd == w.g.rows[op].cmd
    requires w' == w.(g := w.g.(rows := w.g.rows[op := row], pc := w'.g.pc))
    requires forall o :: Dispatching'(w'.g, o) ==> Dispatching'(w.g, o) && (o == op || w'.g.pc == w.g.pc)
    requires Open(row.state) ==> Open(w.g.rows[op].state)
    requires BootOk(w'.g) && RowOk(w', op)
    ensures Inv(w')
  {
    TablesKeep(w, w');
  }

  // An operation whose bytes were never handed over may be failed at any time.
  lemma UnsentFails(w: World, w': World, op: Id)
    requires Inv(w) && op in w.g.rows && Unsent(w, op)
    requires w' == w.(g := FailUnsent(w.g, op).(pc := w'.g.pc)) && !w'.g.pc.Admitted? && !w'.g.pc.Intended?
    requires BootOk(w'.g)
    ensures Inv(w')
  {
    assert Gone(w', op);
    RowStep(w, w', op, w'.g.rows[op]);
  }

  lemma DispatchKeeps(w: World, s: Step)
    requires Inv(w) && Enabled(w, s) && s.Dispatch?
    ensures Inv(Apply(w, s))
  {
    var w' := Apply(w, s);
    var op := w.g.pc.op;
    if op in w.g.rows {
      assert Unsent(w, op) && w.g.rows[op].outbox.Pending? by { assert RowOk(w, op); }
      if w'.g.pc.Idle? {
        UnsentFails(w, w', op);
      } else {
        IntentKeeps(w, w', op);
      }
    }
  }

  lemma IntentKeeps(w: World, w': World, op: Id)
    requires Inv(w) && op in w.g.rows && Unsent(w, op) && w.g.pc == Admitted(op)
    requires op in w'.g.rows && w' == w.(g := w.g.(rows := w.g.rows[op := w'.g.rows[op]], pc := Intended(op)))
    requires w'.g.rows[op] == w.g.rows[op].(outbox := Dispatching)
    ensures Inv(w')
  {
    assert RowOk(w, op);
    assert Unsent(w', op);
    RowStep(w, w', op, w'.g.rows[op]);
  }

  // Doubting an open row changes nothing the Node could contradict.
  lemma DoubtKeeps(w: World, w': World, op: Id)
    requires Inv(w) && op in w.g.rows && Open(w.g.rows[op].state) && !w.g.rows[op].outbox.Pending?
    requires !w'.g.pc.Admitted? && !w'.g.pc.Intended? && BootOk(w'.g)
    requires w' == w.(g := Doubt(w.g, op).(pc := w'.g.pc)) || w' == w.(g := FinishOp(w.g, op, Reconciling, None).(pc := w'.g.pc))
    ensures Inv(w')
  {
    assert RowOk(w, op);
    DoubtfulRow(w, w', op);
    RowStep(w, w', op, w'.g.rows[op]);
  }

  lemma DoubtfulRow(w: World, w': World, op: Id)
    requires op in w.g.rows && RowOk(w, op) && Open(w.g.rows[op].state) && !w.g.rows[op].outbox.Pending?
    requires !w'.g.pc.Admitted? && !w'.g.pc.Intended?
    requires w' == w.(g := Doubt(w.g, op).(pc := w'.g.pc)) || w' == w.(g := FinishOp(w.g, op, Reconciling, None).(pc := w'.g.pc))
    ensures RowOk(w', op)
  {
  }

  lemma InvalidateKeeps(w: World, s: Step)
    requires Inv(w) && Enabled(w, s) && s.Invalidate?
    ensures Inv(Apply(w, s))
  {
    if w.g.rows[s.op].outbox.Pending? {
      assert Unsent(w, s.op) by { assert RowOk(w, s.op); }
      UnsentFails(w, Apply(w, s), s.op);
    } else {
      DoubtKeeps(w, Apply(w, s), s.op);
    }
  }

  lemma RecoverKeeps(w: World, s: Step)
    requires Inv(w) && Enabled(w, s) && s.Recover?
    ensures Inv(Apply(w, s))
  {
    if w.g.rows[s.op].outbox.Pending? {
      assert Unsent(w, s.op) by { assert RowOk(w, s.op); }
      UnsentFails(w, Apply(w, s), s.op);
    } else {
      DoubtKeeps(w, Apply(w, s), s.op);
    }
  }

  // ----- the writer -----

  lemma OrderedDrop(a: seq<Down>, d: Down, b: seq<Down>)
    requires Ordered(a + [d] + b)
    ensures Ordered(a + b)
    ensures d.Deliver? ==> !Carries(a + b, d.cmd.op)
  {
    var s, t := a + [d] + b, a + b;
    forall i, j | 0 <= i < j < |t| && t[j].Deliver?
      ensures !Names(t[i], t[j].cmd.op)
    {
      var i', j' := if i < |a| then i else i + 1, if j < |a| then j else j + 1;
      assert t[i] == s[i'] && t[j] == s[j'];
    }
    if d.Deliver? && Carries(t, d.cmd.op) {
      var k :| 0 <= k < |t| && t[k].Deliver? && t[k].cmd.op == d.cmd.op;
      var k' := if k < |a| then k else k + 1;
      assert s[k'] == t[k] && s[|a|] == d;
      assert Names(s[if k' < |a| then k' else |a|], d.cmd.op);
    }
  }

  // The frame the writer holds, taken out of its path.
  lemma HeldDropped(w': World, e: nat, l: Link, l': Link)
    requires |l.held| > 0 && l' == l.(held := l.held[1..])
    ensures Shorter(w', e, l, l')
    ensures Ordered(Path(l)) && l.held[0].Deliver? ==> !Carries(Path(l'), l.held[0].cmd.op)
  {
    var b := l.held[1..] + l.queue;
    assert Path(l) == l.down + [l.held[0]] + b;
    assert Path(l') == l.down + b;
    if Ordered(Path(l)) {
      OrderedDrop(l.down, l.held[0], b);
    }
  }

  // A command still in the hands of the writer is undecided, and dropping it removes it
  // for good.
  lemma HeldIsOpen(w: World, e: nat)
    requires Inv(w) && e in w.links && w.links[e].held != [] && w.links[e].held[0].Deliver?
    requires w.g.registered == Some(e)
    ensures var op := w.links[e].held[0].cmd.op;
      op in w.g.rows && Open(w.g.rows[op].state) && w.g.rows[op].cmd.epoch == e && op !in w.n.mem.journal
  {
    var d := w.links[e].held[0];
    assert d in Path(w.links[e]);
    assert FrameOk(w, e, d);
    DiskInMemory(w.n);
    assert RowOk(w, d.cmd.op);
    assert Carries(Path(w.links[e]), d.cmd.op);
  }

  // A connection carries only the commands dispatched to it.
  lemma CarriedHome(w: World, e: nat, op: Id)
    requires Wire(w) && e in w.links
    ensures Carries(Path(w.links[e]), op) ==> op in w.g.rows && w.g.rows[op].cmd.epoch == e && op !in w.n.mem.journal
  {
    if Carries(Path(w.links[e]), op) {
      var d :| d in Path(w.links[e]) && d.Deliver? && d.cmd.op == op;
      assert FrameOk(w, e, d);
    }
  }

  // Replacing one connection by a shorter one.
  lemma LinkShrinks(w: World, w': World, e: nat, l: Link)
    requires Inv(w) && e in w.links && w' == w.(links := w.links[e := l]) && Shorter(w', e, w.links[e], l)
    ensures Inv(w')
  {
    forall x | x in w.links ensures Shorter(w', x, w.links[x], w'.links[x]) {
      ShorterRefl(w', x, w.links[x]);
    }
    FewerKeeps(w, w');
  }

  lemma HeldWritten(w: World, w': World, e: nat)
    requires Inv(w) && e in w.links && w.links[e].held != []
    requires w' == w.(links := w.links[e := w.links[e].(held := w.links[e].held[1..], down := w.links[e].down + [w.links[e].held[0]])])
    ensures Inv(w')
  {
    assert Path(w'.links[e]) == Path(w.links[e]);
    LinkShrinks(w, w', e, w'.links[e]);
  }

  lemma HeldGone(w: World, w1: World, e: nat)
    requires Inv(w) && e in w.links && w.links[e].held != []
    requires w1 == w.(links := w.links[e := w.links[e].(held := w.links[e].held[1..])])
    ensures Inv(w1)
  {
    HeldDropped(w1, e, w.links[e], w1.links[e]);
    LinkShrinks(w, w1, e, w1.links[e]);
  }

  lemma WriteKeeps(w: World, s: Step)
    requires Inv(w) && Enabled(w, s) && s.WriteHeld?
    ensures Inv(Apply(w, s))
  {
    var w' := Apply(w, s);
    var e, l := s.link, w.links[s.link];
    var d := l.held[0];
    var w1 := w.(links := w.links[e := l.(held := l.held[1..])]);
    if w.g.registered != Some(e) {
      HeldGone(w, w1, e);
    } else if d.Deliver? && (d.cmd.deadline <= s.now || !s.online) {
      HeldGone(w, w1, e);
      HeldIsOpen(w, e);
      if s.stored { WriterFails(w, w1, w', e); }
    } else {
      HeldWritten(w, w', e);
    }
  }

  lemma WriterFails(w: World, w1: World, w': World, e: nat)
    requires Inv(w) && Inv(w1) && e in w.links && w.links[e].held != [] && w.links[e].held[0].Deliver?
    requires w.g.registered == Some(e) && w.g.pc.Idle?
    requires w1 == w.(links := w.links[e := w.links[e].(held := w.links[e].held[1..])])
    requires var op := w.links[e].held[0].cmd.op;
      op in w.g.rows && w.g.rows[op].cmd.epoch == e && op !in w.n.mem.journal && w' == w1.(g := FailUnsent(w.g, op))
    ensures Inv(w')
  {
    var d := w.links[e].held[0];
    HeldDropped(w1, e, w.links[e], w1.links[e]);
    forall x | x in w1.links ensures !Carries(Path(w1.links[x]), d.cmd.op) {
      CarriedHome(w1, x, d.cmd.op);
    }
    assert Unsent(w1, d.cmd.op);
    UnsentFails(w1, w', d.cmd.op);
  }

  // ----- queries -----

  lemma OrderedPlusQuery(s: seq<Down>, op: Id)
    requires Ordered(s)
    ensures Ordered(s + [Query(op)])
  {
  }

  lemma QueryKeeps(w: World, op: Id, fits: bool)
    requires Inv(w) && op in w.g.rows && w.g.pc.Idle?
    ensures Inv(Enqueue(w, Query(op), fits))
  {
    var w' := Enqueue(w, Query(op), fits);
    if w.g.registered.Some? && fits {
      var e := w.g.registered.value;
      var l, l' := w.links[e], w'.links[e];
      assert Path(l') == Path(l) + [Query(op)];
      if Ordered(Path(l)) { OrderedPlusQuery(Path(l), op); }
      LinkShrinks(w, w', e, l');
    } else if w.g.registered.Some? {
      TablesKeep(w, w');
    }
  }

  lemma ExpireKeeps(w: World, s: Step)
    requires Inv(w) && Enabled(w, s) && s.Expire?
    ensures Inv(Apply(w, s))
  {
    if w.g.rows[s.op].outbox.Pending? {
      assert Unsent(w, s.op) by { assert RowOk(w, s.op); }
      UnsentFails(w, Apply(w, s), s.op);
    } else {
      DoubtKeeps(w, w.(g := Doubt(w.g, s.op)), s.op);
      QueryKeeps(w.(g := Doubt(w.g, s.op)), s.op, s.fits);
    }
  }

  // ----- reports -----

  // What an honest Node reports is never refused: no conflict with an earlier receipt, no
  // stale epoch, no unknown operation, no receipt that contradicts the command.
  lemma ReportAccepted(w: World, e: nat, m: Up, effects: bool)
    requires Inv(w) && ReportOk(w, e, m)
    ensures Acknowledge(w.g, w.me, e, m, effects).1 in {Handled, RolledBack}
    ensures m.op in w.g.rows && !Open(w.g.rows[m.op].state) ==> Acknowledge(w.g, w.me, e, m, effects).0 == w.g
  {
    assert RowOk(w, m.op);
    if m.op in w.n.disk.journal {
      assert EntryOk(w, m.op, w.n.disk.journal[m.op]);
    }
    DiskInMemory(w.n);
  }

  // The row a report leaves behind agrees with what the Node has on disk.
  lemma AcknowledgedRow(w: World, w': World, e: nat, m: Up, effects: bool)
    requires RowsOk(w) && Saved(w.n) && ReportOk(w, e, m) && w.g.pc.Idle?
    requires w' == w.(g := Acknowledge(w.g, w.me, e, m, effects).0)
    requires Acknowledge(w.g, w.me, e, m, effects).1 in {Handled, RolledBack}
    ensures m.op in w'.g.rows && RowOk(w', m.op)
    ensures w'.g == w.g.(rows := w.g.rows[m.op := w'.g.rows[m.op]])
    ensures w'.g.rows[m.op].cmd == w.g.rows[m.op].cmd
    ensures Open(w'.g.rows[m.op].state) ==> Open(w.g.rows[m.op].state)
  {
    assert RowOk(w, m.op);
    assert Gone(w, m.op) ==> Gone(w', m.op);
    assert Unsent(w, m.op) ==> Unsent(w', m.op);
  }

  lemma AcknowledgeKeeps(w: World, e: nat, m: Up, effects: bool)
    requires Inv(w) && ReportOk(w, e, m) && w.g.pc.Idle?
    ensures Inv(w.(g := Acknowledge(w.g, w.me, e, m, effects).0))
  {
    ReportAccepted(w, e, m, effects);
    var w' := w.(g := Acknowledge(w.g, w.me, e, m, effects).0);
    AcknowledgedRow(w, w', e, m, effects);
    RowStep(w, w', m.op, w'.g.rows[m.op]);
  }

  lemma ReceiveKeeps(w: World, s: Step)
    requires Inv(w) && Enabled(w, s) && s.Receive?
    ensures Inv(Apply(w, s))
  {
    var e, l := s.link, w.links[s.link];
    var m := l.up[0];
    var l1 := l.(up := l.up[1..]);
    var w1 := w.(links := w.links[e := l1]);
    assert Path(l1) == Path(l);
    LinkShrinks(w, w1, e, l1);
    if w.g.registered == Some(e) {
      assert m in l.up && ReportOk(w, e, m);
      assert Gone(w, m.op) ==> Gone(w1, m.op);
      AcknowledgeKeeps(w1, e, m, s.effects);
    }
  }

  // ----- handing over a command -----

  lemma OrderedPlusCommand(s: seq<Down>, cmd: Command)
    requires Ordered(s) && forall d :: d in s ==> !Names(d, cmd.op)
    ensures Ordered(s + [Deliver(cmd)])
  {
  }

  lemma HandOverWire(w: World, w': World, op: Id)
    requires Inv(w) && w.g.pc == Intended(op) && op in w.g.rows && op !in w.n.mem.journal
    requires w.g.registered == Some(w.g.rows[op].cmd.epoch)
    requires w' == Enqueue(w, Deliver(w.g.rows[op].cmd), true).(g := w.g.(pc := Idle))
    requires Ordered(Path(w'.links[w.g.rows[op].cmd.epoch]))
    ensures Wire(w')
  {
    var cmd := w.g.rows[op].cmd;
    assert Path(w'.links[cmd.epoch]) == Path(w.links[cmd.epoch]) + [Deliver(cmd)];
    forall e, d | e in w'.links && d in Path(w'.links[e]) ensures FrameOk(w', e, d) {
      if d in Path(w.links[e]) { assert FrameOk(w, e, d); }
    }
  }

  lemma HandOverJournals(w: World, w': World, op: Id)
    requires Journals(w) && w'.n == w.n && w'.native == w.native && w'.me == w.me && w'.g == w.g.(pc := Idle)
    ensures Journals(w')
  {
    forall o | o in w.n.mem.journal ensures EntryOk(w', o, w.n.mem.journal[o]) { assert EntryOk(w, o, w.n.mem.journal[o]); }
    forall o | o in w.n.disk.journal ensures EntryOk(w', o, w.n.disk.journal[o]) { assert EntryOk(w, o, w.n.disk.journal[o]); }
  }

  lemma HandOverRows(w: World, w': World, op: Id)
    requires RowsOk(w) && w.g.pc == Intended(op) && op in w.g.rows && w.g.rows[op].cmd.op == op
    requires w.g.registered == Some(w.g.rows[op].cmd.epoch) && w.g.rows[op].cmd.epoch in w.links
    requires w' == Enqueue(w, Deliver(w.g.rows[op].cmd), true).(g := w.g.(pc := Idle))
    ensures RowsOk(w')
    ensures forall o :: o != op && Gone(w, o) ==> Gone(w', o)
  {
    var cmd := w.g.rows[op].cmd;
    var e := cmd.epoch;
    assert RowOk(w, op);
    assert Path(w'.links[e]) == Path(w.links[e]) + [Deliver(cmd)];
    forall o | o != op ensures Gone(w, o) ==> Gone(w', o) ensures Unsent(w, o) ==> Unsent(w', o) {
      assert Carries(Path(w'.links[e]), o) ==> Carries(Path(w.links[e]), o);
    }
    forall o | o in w'.g.rows ensures RowOk(w', o) { assert RowOk(w, o); }
  }

  lemma HandOverFirst(w: World, op: Id)
    requires Wire(w) && w.g.pc == Intended(op) && op in w.g.rows && w.g.rows[op].cmd.op == op && w.g.rows[op].cmd.epoch in w.links
    ensures Ordered(Path(w.links[w.g.rows[op].cmd.epoch]) + [Deliver(w.g.rows[op].cmd)])
  {
    var e := w.g.rows[op].cmd.epoch;
    forall d | d in Path(w.links[e]) ensures !Names(d, op) { assert FrameOk(w, e, d); }
    OrderedPlusCommand(Path(w.links[e]), w.g.rows[op].cmd);
  }

  lemma HandOverReports(w: World, w': World, op: Id)
    requires Reports(w) && w.g.pc == Intended(op) && w'.n == w.n && w'.me == w.me && w'.g == w.g.(pc := Idle)
    requires w'.links.Keys == w.links.Keys && forall e :: e in w.links ==> w'.links[e].up == w.links[e].up
    requires forall o :: o != op && Gone(w, o) ==> Gone(w', o)
    ensures Reports(w')
  {
    forall x, m | x in w'.links && m in w'.links[x].up ensures ReportOk(w', x, m) {
      assert m in w.links[x].up && ReportOk(w, x, m);
    }
  }

  // The one step that puts a command on a connection.
  lemma HandOver(w: World, w': World, op: Id)
    requires Inv(w) && w.g.pc == Intended(op) && op in w.g.rows
    requires w.g.registered == Some(w.g.rows[op].cmd.epoch)
    requires w' == Enqueue(w, Deliver(w.g.rows[op].cmd), true).(g := w.g.(pc := Idle))
    ensures Inv(w')
  {
    var cmd := w.g.rows[op].cmd;
    assert op !in w.n.mem.journal by { assert RowOk(w, op); }
    HandOverFirst(w, op);
    assert Path(w'.links[cmd.epoch]) == Path(w.links[cmd.epoch]) + [Deliver(cmd)];
    HandOverWire(w, w', op);
    HandOverRows(w, w', op);
    HandOverJournals(w, w', op);
    HandOverReports(w, w', op);
  }

  lemma EnqueueKeeps(w: World, s: Step)
    requires Inv(w) && Enabled(w, s) && s.EnqueueCommand?
    ensures Inv(Apply(w, s))
  {
    var op := w.g.pc.op;
    if op in w.g.rows {
      if s.fits && w.g.registered == Some(w.g.rows[op].cmd.epoch) {
        HandOver(w, Apply(w, s), op);
      } else {
        assert Unsent(w, op) by { assert RowOk(w, op); }
        UnsentFails(w, w.(g := FailUnsent(w.g, op).(pc := Idle)), op);
        TablesKeep(w.(g := FailUnsent(w.g, op).(pc := Idle)), Apply(w, s));
      }
    }
  }

  // ----- crash of the Gateway -----

  lemma OrderedPrefix(s: seq<Down>, t: seq<Down>)
    requires Ordered(s + t)
    ensures Ordered(s)
  {
    forall i, j | 0 <= i < j < |s| && s[j].Deliver? ensures !Names(s[i], s[j].cmd.op) {
      assert (s + t)[i] == s[i] && (s + t)[j] == s[j];
    }
  }

  lemma CrashShortens(w: World)
    ensures Fewer(w, Apply(w, CrashGateway))
  {
    var w' := Apply(w, CrashGateway);
    forall e | e in w.links ensures Shorter(w', e, w.links[e], w'.links[e]) {
      var l := w.links[e];
      assert Path(l) == l.down + (l.held + l.queue);
      assert Path(w'.links[e]) == l.down;
      if Ordered(Path(l)) { OrderedPrefix(l.down, l.held + l.queue); }
    }
  }

  lemma CrashGatewayKeeps(w: World)
    requires Inv(w)
    ensures Inv(Apply(w, CrashGateway))
  {
    CrashShortens(w);
    FewerKeeps(w, Apply(w, CrashGateway));
  }

  // ----- admission -----

  lemma AdmitKeeps(w: World, s: Step)
    requires Inv(w) && Enabled(w, s) && s.Admit?
    ensures Inv(Apply(w, s))
  {
    AdmitShape(w, Apply(w, s), s.cmd);
    AdmitWire(w, Apply(w, s), s.cmd);
    AdmitRows(w, Apply(w, s), s.cmd);
    AdmitJournals(w, Apply(w, s), s.cmd);
    AdmitControl(w, s.cmd);
  }

  lemma AdmitShape(w: World, w': World, cmd: Command)
    requires Shape(w) && cmd.op !in w.g.rows && w.g.registered == Some(cmd.epoch)
    requires w' == w.(g := w.g.(rows := w.g.rows[cmd.op := Row(cmd, Accepted, Pending, None)], pc := Admitted(cmd.op)))
    ensures Shape(w') && BootOk(w'.g)
  {
  }

  lemma AdmitJournals(w: World, w': World, cmd: Command)
    requires Journals(w) && cmd.op !in w.g.rows && w.g.pc.Idle?
    requires w' == w.(g := w.g.(rows := w.g.rows[cmd.op := Row(cmd, Accepted, Pending, None)], pc := Admitted(cmd.op)))
    ensures Journals(w')
  {
    forall o | o in w.n.mem.journal ensures EntryOk(w', o, w.n.mem.journal[o]) { assert EntryOk(w, o, w.n.mem.journal[o]); }
    forall o | o in w.n.disk.journal ensures EntryOk(w', o, w.n.disk.journal[o]) { assert EntryOk(w, o, w.n.disk.journal[o]); }
  }

  // The busy check leaves room for at most one open control.
  lemma AdmitControl(w: World, cmd: Command)
    requires OneControl(w.g) && cmd.op !in w.g.rows
    requires if cmd.kind.Create? then FreshSession(w.g, cmd.session) else !Busy(w.g, cmd.session)
    ensures OneControl(w.g.(rows := w.g.rows[cmd.op := Row(cmd, Accepted, Pending, None)], pc := Admitted(cmd.op)))
  {
  }

  lemma AdmitFrames(w: World, w': World, cmd: Command)
    requires Wire(w) && cmd.op !in w.g.rows && w.g.pc.Idle?
    requires w' == w.(g := w.g.(rows := w.g.rows[cmd.op := Row(cmd, Accepted, Pending, None)], pc := Admitted(cmd.op)))
    ensures Wire(w')
  {
    forall e, d | e in w.links && d in Path(w.links[e]) ensures FrameOk(w', e, d) {
      assert FrameOk(w, e, d);
    }
  }

  lemma AdmitReports(w: World, w': World, cmd: Command)
    requires Reports(w) && cmd.op !in w.g.rows && w.g.pc.Idle?
    requires w' == w.(g := w.g.(rows := w.g.rows[cmd.op := Row(cmd, Accepted, Pending, None)], pc := Admitted(cmd.op)))
    ensures Reports(w')
  {
    forall e, m | e in w.links && m in w.links[e].up ensures ReportOk(w', e, m) {
      assert ReportOk(w, e, m);
      assert Gone(w, m.op) ==> Gone(w', m.op);
    }
  }

  lemma AdmitWire(w: World, w': World, cmd: Command)
    requires Wire(w) && Reports(w) && cmd.op !in w.g.rows && w.g.pc.Idle?
    requires w' == w.(g := w.g.(rows := w.g.rows[cmd.op := Row(cmd, Accepted, Pending, None)], pc := Admitted(cmd.op)))
    ensures Wire(w') && Reports(w')
  {
    AdmitFrames(w, w', cmd);
    AdmitReports(w, w', cmd);
  }

  lemma AdmitRows(w: World, w': World, cmd: Command)
    requires Inv(w) && cmd.op !in w.g.rows && w.g.pc.Idle?
    requires w' == w.(g := w.g.(rows := w.g.rows[cmd.op := Row(cmd, Accepted, Pending, None)], pc := Admitted(cmd.op)))
    ensures RowsOk(w')
  {
    forall o | o in w'.g.rows ensures RowOk(w', o) {
      if o == cmd.op {
        assert forall x :: x in w.n.mem.journal ==> EntryOk(w, x, w.n.mem.journal[x]) ==> x in w.g.rows;
        forall e | e in w.links ensures !Carries(Path(w.links[e]), o) { CarriedHome(w, e, o); }
        assert Unsent(w', o);
      } else {
        assert RowOk(w, o);
        assert Gone(w, o) ==> Gone(w', o);
        assert Unsent(w, o) ==> Unsent(w', o);
      }
    }
  }

  // ----- reconnection -----

  // The fresh connection opens with queries only.
  lemma ConnectPath(w: World, s: Step)
    requires Shape(w) && Enabled(w, s) && s.Connect?
    ensures var w', e := Apply(w, s), w.g.epoch + 1;
      && e !in w.links && w'.links == w.links[e := w'.links[e]] && w'.links[e].up == []
      && (forall d :: d in Path(w'.links[e]) ==> !d.Deliver? && FrameOk(w', e, d))
  {
    var w', e := Apply(w, s), w.g.epoch + 1;
    assert Path(w'.links[e]) == w'.links[e].queue;
    forall d | d in w'.links[e].queue ensures !d.Deliver? && FrameOk(w', e, d) { }
  }

  lemma ConnectWire(w: World, w': World, e: nat)
    requires Inv(w) && e == w.g.epoch + 1 && e in w'.links && w'.links == w.links[e := w'.links[e]] && w'.links[e].up == []
    requires w'.g.rows == w.g.rows && w'.g.pc == w.g.pc && w'.g.epoch == e
    requires w'.g.registered == None || w'.g.registered == Some(e)
    requires w'.n == w.n.(link := Dialing(e))
    requires forall d :: d in Path(w'.links[e]) ==> !d.Deliver? && FrameOk(w', e, d)
    ensures Wire(w') && Reports(w')
    ensures forall o :: (Gone(w, o) ==> Gone(w', o)) && (Unsent(w, o) ==> Unsent(w', o))
  {
    forall o ensures (Gone(w, o) ==> Gone(w', o)) && (Unsent(w, o) ==> Unsent(w', o)) {
      assert !Carries(Path(w'.links[e]), o);
    }
    forall x, d | x in w.links && d in Path(w.links[x]) ensures FrameOk(w', x, d) { assert FrameOk(w, x, d); }
    forall x, m | x in w'.links && m in w'.links[x].up ensures ReportOk(w', x, m) {
      assert x in w.links && ReportOk(w, x, m);
    }
  }

  lemma ConnectKeeps(w: World, s: Step)
    requires Inv(w) && Enabled(w, s) && s.Connect?
    ensures Inv(Apply(w, s))
  {
    var w' := Apply(w, s);
    ConnectPath(w, s);
    ConnectWire(w, w', w.g.epoch + 1);
    ConnectRest(w, w');
  }

  lemma ConnectRest(w: World, w': World)
    requires Journals(w) && RowsOk(w) && w.n.pc.NIdle?
    requires w'.g == w.g.(epoch := w'.g.epoch, registered := w'.g.registered) && w'.me == w.me && w'.native == w.native
    requires w'.n == w.n.(link := w'.n.link)
    requires forall o :: (Gone(w, o) ==> Gone(w', o)) && (Unsent(w, o) ==> Unsent(w', o))
    ensures Journals(w') && RowsOk(w')
  {
    forall o | o in w.n.mem.journal ensures EntryOk(w', o, w.n.mem.journal[o]) { assert EntryOk(w, o, w.n.mem.journal[o]); }
    forall o | o in w.n.disk.journal ensures EntryOk(w', o, w.n.disk.journal[o]) { assert EntryOk(w, o, w.n.disk.journal[o]); }
    forall o | o in w'.g.rows ensures RowOk(w', o) { assert RowOk(w, o); }
  }

  // ----- steps of the Node -----

  // Bookkeeping of the Node: no new frame, no forgotten or altered final outcome.
  ghost predicate Advances(w: World, w': World) {
    && w'.me == w.me && w'.g == w.g && w'.links == w.links
    && (w'.n.link == w.n.link || w'.n.link.Offline?)
    && w'.n.mem.journal.Keys <= w.n.mem.journal.Keys
    && (forall o :: o in w.n.disk.journal ==> o in w'.n.disk.journal)
    && (forall o :: o in w.n.disk.journal && (w.n.disk.journal[o].stage.JConfirmed? || w.n.disk.journal[o].stage.JRejected?)
          ==> w'.n.disk.journal[o].stage == w.n.disk.journal[o].stage)
  }

  lemma AdvanceKeeps(w: World, w': World)
    requires Inv(w) && Advances(w, w') && Shape(w') && Journals(w')
    ensures Inv(w')
  {
    forall o ensures (Gone(w, o) ==> Gone(w', o)) && (Unsent(w, o) ==> Unsent(w', o)) {
      assert forall e :: Live(w', e) ==> Live(w, e);
    }
    forall e, d | e in w.links && d in Path(w.links[e]) ensures FrameOk(w', e, d) { assert FrameOk(w, e, d); }
    forall e, m | e in w.links && m in w.links[e].up ensures ReportOk(w', e, m) { assert ReportOk(w, e, m); }
    forall o | o in w'.g.rows ensures RowOk(w', o) { assert RowOk(w, o); }
  }

  // Sending a truthful report, or losing the connection instead.
  lemma TransmitKeeps(w: World, m: Up, sent: bool)
    requires Inv(w) && w.n.link.Online? && w.n.mem == w.n.disk && ReportOk(w, w.n.link.epoch, m)
    ensures Inv(Transmit(w, m, sent))
  {
    var w' := Transmit(w, m, sent);
    if sent {
      var e := w.n.link.epoch;
      forall o ensures (Gone(w, o) ==> Gone(w', o)) && (Unsent(w, o) ==> Unsent(w', o)) {
        assert Path(w'.links[e]) == Path(w.links[e]);
      }
      SentWire(w, w', m);
      SentJournals(w, w');
    } else {
      forall e | e in w.links ensures Shorter(w', e, w.links[e], w'.links[e]) { ShorterRefl(w', e, w.links[e]); }
      FewerKeeps(w, w');
    }
  }

  lemma SentWire(w: World, w': World, m: Up)
    requires Wire(w) && Reports(w) && w.n.link.Online? && w.n.link.epoch in w.links && ReportOk(w, w.n.link.epoch, m)
    requires w' == Transmit(w, m, true)
    requires forall o :: (Gone(w, o) ==> Gone(w', o)) && (Unsent(w, o) ==> Unsent(w', o))
    ensures Wire(w') && Reports(w')
  {
    var e := w.n.link.epoch;
    assert Path(w'.links[e]) == Path(w.links[e]);
    forall x, d | x in w'.links && d in Path(w'.links[x]) ensures FrameOk(w', x, d) {
      assert d in Path(w.links[x]) && FrameOk(w, x, d);
    }
    forall x, u | x in w'.links && u in w'.links[x].up ensures ReportOk(w', x, u) {
      if u in w.links[x].up { assert ReportOk(w, x, u); }
    }
  }

  lemma SentJournals(w: World, w': World)
    requires Journals(w) && RowsOk(w) && w'.n == w.n && w'.g == w.g && w'.me == w.me && w'.native == w.native
    requires forall o :: (Gone(w, o) ==> Gone(w', o)) && (Unsent(w, o) ==> Unsent(w', o))
    ensures Journals(w') && RowsOk(w')
  {
    forall o | o in w.n.mem.journal ensures EntryOk(w', o, w.n.mem.journal[o]) { assert EntryOk(w, o, w.n.mem.journal[o]); }
    forall o | o in w.n.disk.journal ensures EntryOk(w', o, w.n.disk.journal[o]) { assert EntryOk(w, o, w.n.disk.journal[o]); }
    forall o | o in w'.g.rows ensures RowOk(w', o) { assert RowOk(w, o); }
  }

  // Entries survive a change that leaves every other entry and call alone.
  lemma EntriesKeep(w: World, w': World, op: Id)
    requires w'.g == w.g && w'.me == w.me && forall o :: o != op ==> w'.native[o] == w.native[o]
    ensures forall o, e :: o != op && EntryOk(w, o, e) ==> EntryOk(w', o, e)
    ensures forall e :: w'.native[op] == w.native[op] && EntryOk(w, op, e) ==> EntryOk(w', op, e)
  {
  }

  // A refusal is recorded: nothing was begun.
  lemma RefusedJournals(w: World, w': World, op: Id)
    requires Journals(w) && w.n.pc == Check(op) && op in w.n.mem.journal && w'.me == w.me && w'.g == w.g
    requires w'.native == w.native && w'.n == w.n.(mem := SetStage(w.n.mem, op, JRejected), pc := SaveRejected(op))
    ensures Journals(w')
  {
    assert EntryOk(w, op, w.n.mem.journal[op]);
    assert ExecutedOps(w'.n.mem.journal) == ExecutedOps(w.n.mem.journal);
    EntriesKeep(w, w', op);
  }

  // The one native call of this operation is begun.
  lemma BegunJournals(w: World, w': World, op: Id, r: Receipt)
    requires Journals(w) && w.n.pc == Check(op) && op in w.n.mem.journal && w'.me == w.me && w'.g == w.g
    requires w'.native == w.native + multiset{op}
    requires w'.n == w.n.(mem := SetStage(w.n.mem, op, JExecuting).(calls := w.n.mem.calls + 1), pc := SaveExecuting(op, r))
    requires ReceiptMatches(w.n.mem.journal[op].cmd, w.me.node, r)
    ensures Journals(w')
  {
    assert EntryOk(w, op, w.n.mem.journal[op]);
    assert op !in ExecutedOps(w.n.mem.journal);
    assert ExecutedOps(w'.n.mem.journal) == ExecutedOps(w.n.mem.journal) + {op};
    forall o ensures w'.native[o] == w.native[o] + (if o == op then 1 else 0) { }
    EntriesKeep(w, w', op);
  }

  lemma ProceedDecides(w: World, s: Step)
    requires Inv(w) && Enabled(w, s) && s.Proceed? && w.n.pc.Check?
    ensures Inv(Apply(w, s))
  {
    var op := w.n.pc.op;
    RunReceiptMatches(w.n.mem.journal[op].cmd, w.me, w.n.link.epoch, s.now, s.session, s.freshItem);
    if Apply(w, s).n.pc.SaveRejected? {
      RefusedJournals(w, Apply(w, s), op);
    } else {
      BegunJournals(w, Apply(w, s), op, Apply(w, s).n.pc.receipt);
    }
    AdvanceKeeps(w, Apply(w, s));
  }

  lemma ConfirmedJournals(w: World, w': World, op: Id)
    requires Journals(w) && w.n.pc.Finish? && w.n.pc.op == op && op in w.n.mem.journal
    requires w'.me == w.me && w'.g == w.g && w'.native == w.native
    requires w'.n == w.n.(mem := SetStage(w.n.mem, op, JConfirmed(w.n.pc.receipt)), pc := SaveConfirmed(op))
    ensures Journals(w')
  {
    assert EntryOk(w, op, w.n.mem.journal[op]);
    assert ExecutedOps(w'.n.mem.journal) == ExecutedOps(w.n.mem.journal);
    EntriesKeep(w, w', op);
  }

  // The fault the fixture injects: the call is begun, its outcome never recorded.
  lemma FaultKeeps(w: World, w': World)
    requires Inv(w) && w.n.pc.Finish? && w' == w.(n := w.n.(pc := NIdle, link := Offline))
    ensures Inv(w')
  {
    EntriesKeep(w, w', 0);
    AdvanceKeeps(w, w');
  }

  lemma ProceedConfirms(w: World, s: Step)
    requires Inv(w) && Enabled(w, s) && s.Proceed? && w.n.pc.Finish?
    ensures Inv(Apply(w, s))
  {
    if s.fault {
      FaultKeeps(w, Apply(w, s));
    } else {
      ConfirmedJournals(w, Apply(w, s), w.n.pc.op);
      AdvanceKeeps(w, Apply(w, s));
    }
  }

  lemma SavedJournals(w: World, w': World, pc: NodePc)
    requires Journals(w) && w'.me == w.me && w'.g == w.g && w'.native == w.native
    requires w'.n == w.n.(disk := w.n.mem, pc := pc) && !w.n.pc.NIdle? && w.n.pc.op in w.n.mem.journal
    requires match w.n.pc
      case SaveDelivered(op) => pc == AckDelivered(op)
      case SaveRejected(op) => pc == AckFinal(op)
      case SaveExecuting(op, r) => pc == Finish(op, r)
      case SaveConfirmed(op) => pc == AckFinal(op)
      case _ => false
    ensures Journals(w')
    ensures forall o :: o in w.n.disk.journal ==> o in w.n.mem.journal
    ensures forall o :: o in w.n.disk.journal && (w.n.disk.journal[o].stage.JConfirmed? || w.n.disk.journal[o].stage.JRejected?)
              ==> w.n.mem.journal[o].stage == w.n.disk.journal[o].stage
  {
    EntriesKeep(w, w', w.n.pc.op);
  }

  lemma ProceedSaves(w: World, s: Step)
    requires Inv(w) && Enabled(w, s) && s.Proceed?
    requires w.n.pc.SaveDelivered? || w.n.pc.SaveRejected? || w.n.pc.SaveExecuting? || w.n.pc.SaveConfirmed?
    ensures Inv(Apply(w, s))
  {
    SavedJournals(w, Apply(w, s), Apply(w, s).n.pc);
    AdvanceKeeps(w, Apply(w, s));
  }

  // The handler past one of its two acknowledgements.
  function Reported(w: World): World
    requires w.n.pc.AckDelivered? || w.n.pc.AckFinal?
  {
    w.(n := w.n.(pc := if w.n.pc.AckFinal? then NIdle else Check(w.n.pc.op)))
  }

  lemma ReportAdvances(w: World)
    requires Inv(w) && (w.n.pc.AckDelivered? || w.n.pc.AckFinal?)
    ensures Inv(Reported(w)) && ReportOk(Reported(w), w.n.link.epoch, Up(false, w.n.pc.op, ReportOf(w.n.mem.journal[w.n.pc.op])))
  {
    var w1 := Reported(w);
    assert EntryOk(w, w.n.pc.op, w.n.mem.journal[w.n.pc.op]);
    forall o | o in w1.n.mem.journal ensures EntryOk(w1, o, w1.n.mem.journal[o]) { assert EntryOk(w, o, w.n.mem.journal[o]); }
    AdvanceKeeps(w, w1);
  }

  lemma ProceedReports(w: World, s: Step)
    requires Inv(w) && Enabled(w, s) && s.Proceed? && (w.n.pc.AckDelivered? || w.n.pc.AckFinal?)
    ensures Inv(Apply(w, s))
  {
    var op := w.n.pc.op;
    ReportAdvances(w);
    TransmitKeeps(Reported(w), Up(false, op, ReportOf(w.n.mem.journal[op])), s.sent);
  }

  lemma ProceedKeeps(w: World, s: Step)
    requires Inv(w) && Enabled(w, s) && s.Proceed?
    ensures Inv(Apply(w, s))
  {
    match w.n.pc {
      case SaveDelivered(_) => ProceedSaves(w, s);
      case AckDelivered(_) => ProceedReports(w, s);
      case Check(_) => ProceedDecides(w, s);
      case SaveRejected(_) => ProceedSaves(w, s);
      case SaveExecuting(_, _) => ProceedSaves(w, s);
      case Finish(_, _) => ProceedConfirms(w, s);
      case SaveConfirmed(_) => ProceedSaves(w, s);
      case AckFinal(_) => ProceedReports(w, s);
    }
  }

  lemma ReloadedJournals(w: World, w': World)
    requires Journals(w) && w'.me == w.me && w'.g == w.g && w'.native == w.native
    requires w'.n == Node(Load(w.n.disk), Load(w.n.disk), NIdle, Offline)
    ensures Journals(w')
  {
    assert ExecutedOps(w'.n.disk.journal) == ExecutedOps(w.n.disk.journal);
    forall o | o in w'.n.disk.journal ensures EntryOk(w', o, w'.n.disk.journal[o]) { assert EntryOk(w, o, w.n.disk.journal[o]); }
  }

  lemma CrashNodeKeeps(w: World)
    requires Inv(w)
    ensures Inv(Apply(w, CrashNode))
  {
    DiskInMemory(w.n);
    ReloadedJournals(w, Apply(w, CrashNode));
    AdvanceKeeps(w, Apply(w, CrashNode));
  }

  // ----- a frame reaches the Node -----

  lemma OrderedHead(d: Down, s: seq<Down>, op: Id)
    requires Ordered([d] + s) && Names(d, op)
    ensures !Carries(s, op)
  {
    forall k | 0 <= k < |s| ensures !(s[k].Deliver? && s[k].cmd.op == op) {
      assert ([d] + s)[0] == d && ([d] + s)[k + 1] == s[k];
    }
  }

  lemma HeadShortens(w': World, e: nat, l: Link, l1: Link)
    requires l.down != [] && l1 == l.(down := l.down[1..]) && Ordered(Path(l))
    ensures Path(l) == [l.down[0]] + Path(l1)
    ensures Shorter(w', e, l, l1)
  {
    var head, tail := l.down[0], Path(l1);
    assert Path(l) == [head] + tail;
    assert [] + [head] + tail == [head] + tail && [] + tail == tail;
    OrderedDrop([], head, tail);
    forall d | d in tail ensures d in Path(l) { }
  }

  // The connection after its oldest frame was taken off.
  lemma HeadTaken(w: World, e: nat, op: Id)
    requires Inv(w) && e in w.links && w.links[e].down != []
    ensures var l := w.links[e]; var l1 := l.(down := l.down[1..]); var d := l.down[0];
      && Inv(w.(links := w.links[e := l1])) && FrameOk(w, e, d)
      && (Names(d, op) ==> !Carries(Path(l1), op))
  {
    var l := w.links[e];
    var l1 := l.(down := l.down[1..]);
    HeadShortens(w.(links := w.links[e := l1]), e, l, l1);
    assert l.down[0] in Path(l);
    if Names(l.down[0], op) { OrderedHead(l.down[0], Path(l1), op); }
    LinkShrinks(w, w.(links := w.links[e := l1]), e, l1);
  }

  // A query the journal cannot answer proves that the command is gone.
  lemma UnansweredIsGone(w: World, op: Id)
    requires Inv(w) && w.n.link.Online? && op in w.g.rows && op !in w.n.mem.journal && !Dispatching'(w.g, op)
    requires w.g.rows[op].cmd.epoch <= w.n.link.epoch && !Carries(Path(w.links[w.n.link.epoch]), op)
    ensures Gone(w, op)
  {
  }

  lemma AnswerQuery(w: World, op: Id, sent: bool)
    requires Inv(w) && w.n.link.Online? && w.n.pc.NIdle? && op in w.g.rows && !Dispatching'(w.g, op)
    requires w.g.rows[op].cmd.epoch <= w.n.link.epoch && !Carries(Path(w.links[w.n.link.epoch]), op)
    ensures Inv(Transmit(w, Up(true, op, if op in w.n.mem.journal then ReportOf(w.n.mem.journal[op]) else NotSeen), sent))
  {
    if op in w.n.mem.journal {
      TransmitKeeps(w, Up(true, op, ReportOf(w.n.mem.journal[op])), sent);
    } else {
      UnansweredIsGone(w, op);
      TransmitKeeps(w, Up(true, op, NotSeen), sent);
    }
  }

  lemma ReadQuery(w: World, s: Step)
    requires Inv(w) && Enabled(w, s) && s.Read? && w.n.link.Online? && w.links[w.n.link.epoch].down[0].Query?
    ensures Inv(Apply(w, s))
  {
    var e := w.n.link.epoch;
    var op := w.links[e].down[0].op;
    HeadTaken(w, e, op);
    AnswerQuery(w.(links := w.links[e := w.links[e].(down := w.links[e].down[1..])]), op, s.sent);
  }

  // The Node enters a new command in its journal.
  lemma JournalStarts(w: World, w': World, cmd: Command)
    requires Inv(w) && w.n.pc.NIdle? && w.n.link.Online? && cmd.epoch == w.n.link.epoch
    requires cmd.op in w.g.rows && w.g.rows[cmd.op].cmd == cmd && cmd.op !in w.n.mem.journal && !Dispatching'(w.g, cmd.op)
    requires !Carries(Path(w.links[cmd.epoch]), cmd.op)
    requires !w.g.rows[cmd.op].state.Failed? && !w.g.rows[cmd.op].outbox.Pending?
    requires forall x, m :: x in w.links && m in w.links[x].up ==> m.op != cmd.op
    requires w' == w.(n := w.n.(mem := w.n.mem.(journal := w.n.mem.journal[cmd.op := Entry(cmd, JDelivered)]), pc := SaveDelivered(cmd.op)))
    ensures Inv(w')
  {
    forall o | o != cmd.op ensures (Gone(w, o) ==> Gone(w', o)) && (Unsent(w, o) ==> Unsent(w', o)) { }
    forall x | x in w.links ensures !Carries(Path(w.links[x]), cmd.op) { CarriedHome(w, x, cmd.op); }
    forall x, d | x in w.links && d in Path(w.links[x]) ensures FrameOk(w', x, d) { assert FrameOk(w, x, d); }
    forall x, m | x in w.links && m in w.links[x].up ensures ReportOk(w', x, m) { assert ReportOk(w, x, m); }
    forall o | o in w'.g.rows ensures RowOk(w', o) { assert RowOk(w, o); }
    assert ExecutedOps(w'.n.mem.journal) == ExecutedOps(w.n.mem.journal);
    forall o | o in w'.n.mem.journal ensures EntryOk(w', o, w'.n.mem.journal[o]) {
      if o != cmd.op { assert EntryOk(w, o, w.n.mem.journal[o]); }
    }
    forall o | o in w'.n.disk.journal ensures EntryOk(w', o, w'.n.disk.journal[o]) { assert EntryOk(w, o, w.n.disk.journal[o]); }
  }

  lemma ReadCommand(w: World, s: Step)
    requires Inv(w) && Enabled(w, s) && s.Read? && w.n.link.Online? && w.links[w.n.link.epoch].down[0].Deliver?
    ensures Inv(Apply(w, s))
  {
    var e := w.n.link.epoch;
    var l := w.links[e];
    var cmd := l.down[0].cmd;
    HeadTaken(w, e, cmd.op);
    assert l.down[0] in Path(l) && Carries(Path(l), cmd.op);
    assert RowOk(w, cmd.op);
    DiskInMemory(w.n);
    forall x, m | x in w.links && m in w.links[x].up ensures m.op != cmd.op { assert ReportOk(w, x, m); }
    JournalStarts(w.(links := w.links[e := l.(down := l.down[1..])]), Apply(w, s), cmd);
  }

  lemma ReadKeeps(w: World, s: Step)
    requires Inv(w) && Enabled(w, s) && s.Read?
    ensures Inv(Apply(w, s))
  {
    var e := w.n.link.epoch;
    if w.n.link.Online? && w.links[e].down[0].Query? {
      ReadQuery(w, s);
    } else if w.n.link.Online? && w.links[e].down[0].Deliver? {
      ReadCommand(w, s);
    } else {
      HeadTaken(w, e, 0);
      var w1 := w.(links := w.links[e := w.links[e].(down := w.links[e].down[1..])]);
      forall x | x in w1.links ensures Shorter(Apply(w, s), x, w1.links[x], w1.links[x]) { ShorterRefl(Apply(w, s), x, w1.links[x]); }
      FewerKeeps(w1, Apply(w, s));
    }
  }

  // ----- every run -----

  lemma StepKeeps(w: World, s: Step)
    requires Inv(w) && Enabled(w, s)
    ensures Inv(Apply(w, s))
  {
    match s {
      case Admit(_) => AdmitKeeps(w, s);
      case Dispatch(_, _) => DispatchKeeps(w, s);
      case EnqueueCommand(_) => EnqueueKeeps(w, s);
      case Pop(_) => PopKeeps(w, s);
      case WriteHeld(_, _, _, _) => WriteKeeps(w, s);
      case Receive(_, _) => ReceiveKeeps(w, s);
      case Expire(_, _, _) => ExpireKeeps(w, s);
      case CrashGateway => CrashGatewayKeeps(w);
      case Recover(_) => RecoverKeeps(w, s);
      case Connect(_, _) => ConnectKeeps(w, s);
      case Invalidate(_) => InvalidateKeeps(w, s);
      case Read(_) => ReadKeeps(w, s);
      case Proceed(_, _, _, _, _) => ProceedKeeps(w, s);
      case Hangup => HangupKeeps(w);
      case CrashNode => CrashNodeKeeps(w);
      case _ => QuietKeeps(w, s);
    }
  }

  lemma {:induction false} RunKeeps(w: World, steps: seq<Step>, w': World)
    requires Inv(w) && Runs(w, steps, w')
    ensures Inv(w')
    decreases |steps|
  {
    if steps != [] {
      StepKeeps(w, steps[0]);
      RunKeeps(Apply(w, steps[0]), steps[1..], w');
    }
  }
}
