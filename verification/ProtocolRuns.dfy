// Runs that get somewhere: a command on a quiet connection ends as its Node decides, and a
// doubt is settled by asking the journal after a reconnection.
module ProtocolRuns {
  import opened Basics
  import opened Commands
  import opened ProtocolWorld
  import opened ProtocolSafety
  import opened ProtocolTheorems
  import opened ProtocolEffects
  import opened FakeNode

  // ----- putting runs together -----

  lemma {:induction false} RunsJoin(w: World, a: seq<Step>, w1: World, b: seq<Step>, w2: World)
    requires Runs(w, a, w1) && Runs(w1, b, w2)
    ensures Runs(w, a + b, w2)
    decreases |a|
  {
    if a == [] {
      assert a + b == b;
    } else {
      RunsJoin(Apply(w, a[0]), a[1..], w1, b, w2);
      assert (a + b)[0] == a[0] && (a + b)[1..] == a[1..] + b;
    }
  }

  // Some run leads from one world to the other.
  ghost predicate Leads(w: World, w': World) {
    exists steps :: Runs(w, steps, w')
  }

  lemma {:induction false} LeadsOne(w: World, s: Step, w': World)
    requires Enabled(w, s) && Apply(w, s) == w'
    ensures Leads(w, w')
  {
    assert Runs(w', [], w');
    RunsOne(w, s, [], w');
  }

  lemma {:induction false} LeadsJoin(w: World, w1: World, w2: World)
    requires Leads(w, w1) && Leads(w1, w2)
    ensures Leads(w, w2)
  {
    var a :| Runs(w, a, w1);
    var b :| Runs(w1, b, w2);
    RunsJoin(w, a, w1, b, w2);
  }

  lemma {:induction false} LeadsKeeps(w: World, w': World)
    requires Inv(w) && Leads(w, w')
    ensures Inv(w')
  {
    var steps :| Runs(w, steps, w');
    RunKeeps(w, steps, w');
  }

  // ----- a frame through a quiet connection -----

  const QUIET := Link([], [], [], [])

  function WithLink(w: World, e: nat, l: Link): World {
    w.(links := w.links[e := l])
  }

  function WithRow(w: World, op: Id, row: Row): World {
    w.(g := w.g.(rows := w.g.rows[op := row]))
  }

  lemma {:induction false} LinkTwice(w: World, e: nat, a: Link, b: Link)
    ensures WithLink(WithLink(w, e, a), e, b) == WithLink(w, e, b)
  {
  }

  // Popped, written and read, with other frames waiting behind it.
  lemma {:induction false} Popped(w: World, e: nat, d: Down, more: seq<Down>)
    requires e in w.links && w.links[e] == Link([d] + more, [], [], [])
    ensures Leads(w, WithLink(w, e, Link(more, [d], [], [])))
  {
    assert ([d] + more)[0] == d && ([d] + more)[1..] == more;
    LeadsOne(w, Pop(e), WithLink(w, e, Link(more, [d], [], [])));
  }

  lemma {:induction false} Written(w: World, e: nat, d: Down, more: seq<Down>, now: int)
    requires e in w.links && w.links[e] == Link(more, [d], [], []) && w.g.registered == Some(e) && w.g.pc.Idle?
    requires d.Deliver? ==> now < d.cmd.deadline
    ensures Leads(w, WithLink(w, e, Link(more, [], [d], [])))
  {
    assert [d][1..] == [] && [] + [d] == [d];
    LeadsOne(w, WriteHeld(e, now, true, true), WithLink(w, e, Link(more, [], [d], [])));
  }

  lemma {:induction false} Carried(w: World, e: nat, d: Down, more: seq<Down>, now: int)
    requires e in w.links && w.links[e] == Link([d] + more, [], [], []) && w.g.registered == Some(e) && w.g.pc.Idle?
    requires d.Deliver? ==> now < d.cmd.deadline
    ensures Leads(w, WithLink(w, e, Link(more, [], [d], [])))
  {
    var w1 := WithLink(w, e, Link(more, [d], [], []));
    Popped(w, e, d, more);
    Written(w1, e, d, more, now);
    LinkTwice(w, e, Link(more, [d], [], []), Link(more, [], [d], []));
    LeadsJoin(w, w1, WithLink(w, e, Link(more, [], [d], [])));
  }

  lemma {:induction false} TakenOnce(rows: map<Id, Row>, m: Up, effects: bool, rows': map<Id, Row>, row: Row)
    requires m.op in rows && OnlyRow(rows, rows', m.op)
    requires Taken(rows[m.op], m, effects, rows'[m.op]) && Taken(rows[m.op], m, effects, row)
    ensures rows' == rows[m.op := row]
  {
  }

  lemma {:induction false} ReceiveIs(w: World, e: nat, m: Up, more: seq<Up>, row: Row)
    requires Enabled(w, Receive(e, true)) && w.g.registered == Some(e) && w.links[e] == Link([], [], [], [m] + more)
    requires Acknowledge(w.g, w.me, e, m, true).0 == w.g.(rows := w.g.rows[m.op := row])
    ensures Apply(w, Receive(e, true)) == WithLink(WithRow(w, m.op, row), e, Link([], [], [], more))
  {
    assert ([m] + more)[0] == m && ([m] + more)[1..] == more;
  }

  // The Gateway reads the next report of the connection.
  lemma {:induction false} TakenIn(w: World, e: nat, m: Up, more: seq<Up>, row: Row)
    requires Inv(w) && w.g.pc.Idle? && w.g.registered == Some(e) && e in w.links && w.links[e] == Link([], [], [], [m] + more)
    requires m.op in w.g.rows && Taken(w.g.rows[m.op], m, true, row)
    ensures Leads(w, WithLink(WithRow(w, m.op, row), e, Link([], [], [], more)))
  {
    assert m in w.links[e].up && ReportOk(w, e, m);
    ReportTaken(w, e, m, true);
    TakenOnce(w.g.rows, m, true, Acknowledge(w.g, w.me, e, m, true).0.rows, row);
    ReceiveIs(w, e, m, more, row);
    LeadsOne(w, Receive(e, true), WithLink(WithRow(w, m.op, row), e, Link([], [], [], more)));
  }

  // ----- a command, from its admission to its receipt -----

  // A connection with nothing under way on either side.
  predicate Quiet(w: World, e: nat) {
    && w.g.pc.Idle? && w.g.registered == Some(e) && e in w.links && w.links[e] == QUIET
    && w.n.link == Online(e) && w.n.pc.NIdle?
  }

  function Handed(w: World, cmd: Command): World {
    WithLink(WithRow(w, cmd.op, Row(cmd, Accepted, Dispatching, None)), cmd.epoch, Link([Deliver(cmd)], [], [], []))
  }

  lemma {:induction false} Admitting(w: World, cmd: Command)
    requires Enabled(w, Admit(cmd))
    ensures var w' := WithRow(w, cmd.op, Row(cmd, Accepted, Pending, None)); Leads(w, w'.(g := w'.g.(pc := Admitted(cmd.op))))
  {
    var w' := WithRow(w, cmd.op, Row(cmd, Accepted, Pending, None));
    LeadsOne(w, Admit(cmd), w'.(g := w'.g.(pc := Admitted(cmd.op))));
  }

  lemma {:induction false} Intending(w: World, cmd: Command, now: int)
    requires w.g.registered == Some(cmd.epoch) && now < cmd.deadline
    ensures var a, b := WithRow(w, cmd.op, Row(cmd, Accepted, Pending, None)), WithRow(w, cmd.op, Row(cmd, Accepted, Dispatching, None));
      Leads(a.(g := a.g.(pc := Admitted(cmd.op))), b.(g := b.g.(pc := Intended(cmd.op))))
  {
    var a, b := WithRow(w, cmd.op, Row(cmd, Accepted, Pending, None)), WithRow(w, cmd.op, Row(cmd, Accepted, Dispatching, None));
    assert a.g.rows[cmd.op := Row(cmd, Accepted, Dispatching, None)] == b.g.rows;
    LeadsOne(a.(g := a.g.(pc := Admitted(cmd.op))), Dispatch(now, true), b.(g := b.g.(pc := Intended(cmd.op))));
  }

  lemma {:induction false} Handing(w: World, cmd: Command)
    requires w.g.registered == Some(cmd.epoch) && w.g.pc.Idle? && cmd.epoch in w.links && w.links[cmd.epoch] == QUIET
    ensures var b := WithRow(w, cmd.op, Row(cmd, Accepted, Dispatching, None)); Leads(b.(g := b.g.(pc := Intended(cmd.op))), Handed(w, cmd))
  {
    var b := WithRow(w, cmd.op, Row(cmd, Accepted, Dispatching, None));
    assert [] + [Deliver(cmd)] == [Deliver(cmd)];
    LeadsOne(b.(g := b.g.(pc := Intended(cmd.op))), EnqueueCommand(true), Handed(w, cmd));
  }

  // Admitted, dispatched and handed to the connection.
  lemma {:induction false} HandedOver(w: World, cmd: Command, now: int)
    requires Quiet(w, cmd.epoch) && Enabled(w, Admit(cmd)) && now < cmd.deadline
    ensures Leads(w, Handed(w, cmd))
  {
    var a, b := WithRow(w, cmd.op, Row(cmd, Accepted, Pending, None)), WithRow(w, cmd.op, Row(cmd, Accepted, Dispatching, None));
    Admitting(w, cmd);
    Intending(w, cmd, now);
    Handing(w, cmd);
    LeadsJoin(w, a.(g := a.g.(pc := Admitted(cmd.op))), b.(g := b.g.(pc := Intended(cmd.op))));
    LeadsJoin(w, b.(g := b.g.(pc := Intended(cmd.op))), Handed(w, cmd));
  }

  // The Node has read the command and noted it in memory.
  function Noted(w: World, cmd: Command): World {
    WithRow(w, cmd.op, Row(cmd, Accepted, Dispatching, None)).(
      n := w.n.(mem := w.n.mem.(journal := w.n.mem.journal[cmd.op := Entry(cmd, JDelivered)]), pc := SaveDelivered(cmd.op)))
  }

  lemma {:induction false} Reading(w: World, cmd: Command)
    requires Quiet(w, cmd.epoch) && cmd.op !in w.n.mem.journal
    ensures Leads(WithLink(Handed(w, cmd), cmd.epoch, Link([], [], [Deliver(cmd)], [])), Noted(w, cmd))
  {
    var e := cmd.epoch;
    var w2 := WithLink(Handed(w, cmd), e, Link([], [], [Deliver(cmd)], []));
    assert [Deliver(cmd)][1..] == [];
    assert w2.links[e := QUIET] == w.links;
    LeadsOne(w2, Read(true), Noted(w, cmd));
  }

  lemma {:induction false} Arrived(w: World, cmd: Command, now: int)
    requires Inv(w) && Quiet(w, cmd.epoch) && Enabled(w, Admit(cmd)) && now < cmd.deadline
    ensures Leads(w, Noted(w, cmd)) && cmd.op !in w.n.mem.journal
  {
    var w1 := Handed(w, cmd);
    var w2 := WithLink(w1, cmd.epoch, Link([], [], [Deliver(cmd)], []));
    assert cmd.op in w.n.mem.journal ==> EntryOk(w, cmd.op, w.n.mem.journal[cmd.op]);
    HandedOver(w, cmd, now);
    assert [Deliver(cmd)] + [] == [Deliver(cmd)];
    Carried(w1, cmd.epoch, Deliver(cmd), [], now);
    LeadsJoin(w, w1, w2);
    Reading(w, cmd);
    LeadsJoin(w, w2, Noted(w, cmd));
  }

  lemma {:induction false} RowTwice(w: World, e: nat, op: Id, a: Row, b: Row, l: Link)
    ensures WithLink(WithRow(WithLink(WithRow(w, op, a), e, l), op, b), e, QUIET) == WithLink(WithRow(w, op, b), e, QUIET)
  {
  }

  // Both reports of the handler taken in.
  lemma {:induction false} BothTaken(w: World, e: nat, first: Up, second: Up, row1: Row, row2: Row)
    requires Inv(w) && w.g.pc.Idle? && w.g.registered == Some(e) && e in w.links && w.links[e] == Link([], [], [], [first, second])
    requires first.op == second.op && first.op in w.g.rows
    requires Taken(w.g.rows[first.op], first, true, row1) && Taken(row1, second, true, row2)
    ensures Leads(w, WithLink(WithRow(w, first.op, row2), e, QUIET))
  {
    var op := first.op;
    assert [first] + [second] == [first, second] && [second] + [] == [second];
    TakenIn(w, e, first, [second], row1);
    var w1 := WithLink(WithRow(w, op, row1), e, Link([], [], [], [second]));
    LeadsKeeps(w, w1);
    TakenIn(w1, e, second, [], row2);
    RowTwice(w, e, op, row1, row2, Link([], [], [], [second]));
    LeadsJoin(w, w1, WithLink(WithRow(w, op, row2), e, QUIET));
  }

  // What the handler's two reports leave, from the world in which the command was noted.
  lemma {:induction false} Answering(w: World, cmd: Command, w1: World, report: Report, row: Row)
    requires Quiet(w, cmd.epoch) && Inv(w1) && OnlyNode(Noted(w, cmd), w1)
    requires Outgoing(w1) == [Up(false, cmd.op, RepDelivered), Up(false, cmd.op, report)]
    requires Taken(Row(cmd, Delivered, OutDelivered, None), Up(false, cmd.op, report), true, row)
    ensures Leads(w1, WithLink(WithRow(w1, cmd.op, row), cmd.epoch, QUIET))
    ensures WithRow(w1, cmd.op, row).g == WithRow(w, cmd.op, row).g
  {
    var e := cmd.epoch;
    assert w1.links[e] == Link([], [], [], [Up(false, cmd.op, RepDelivered), Up(false, cmd.op, report)]);
    BothTaken(w1, e, Up(false, cmd.op, RepDelivered), Up(false, cmd.op, report), Row(cmd, Delivered, OutDelivered, None), row);
    assert w1.g.rows[cmd.op := row] == w.g.rows[cmd.op := row];
  }

  // An acceptable command on a quiet connection can be run: it is executed once, and its
  // operation ends confirmed with exactly the receipt the Gateway expects.
  lemma {:induction false} CommandConfirms(w: World, cmd: Command, now: int, session: Option<NodeSession>, freshItem: Id) returns (w': World)
    requires Reachable(w) && Quiet(w, cmd.epoch) && Enabled(w, Admit(cmd)) && Acceptable(cmd, w.me, cmd.epoch, now, session)
    ensures Leads(w, w') && Quiet(w', cmd.epoch)
    ensures w'.g.rows == w.g.rows[cmd.op := Row(cmd, Confirmed, OutDelivered, Some(ExpectedReceipt(cmd, w.me.node, freshItem)))]
    ensures w'.native == w.native + multiset{cmd.op}
  {
    var r := ExpectedReceipt(cmd, w.me.node, freshItem);
    ReachableInv(w);
    Arrived(w, cmd, now);
    RunsExactly(cmd, w.me, cmd.epoch, now, session, freshItem);
    var w1 := Noted(w, cmd);
    var w2 := HandlerReaches(w1, cmd, r, Proceed(now, session, freshItem, true, false));
    LeadsJoin(w, w1, w2);
    LeadsKeeps(w, w2);
    var row := Row(cmd, Confirmed, OutDelivered, Some(r));
    Answering(w, cmd, w2, RepConfirmed(r), row);
    w' := WithLink(WithRow(w2, cmd.op, row), cmd.epoch, QUIET);
    LeadsJoin(w, w2, w');
  }

  // Any other command ends failed, and was not executed.
  lemma {:induction false} CommandFails(w: World, cmd: Command, now: int, session: Option<NodeSession>, freshItem: Id) returns (w': World)
    requires Reachable(w) && Quiet(w, cmd.epoch) && Enabled(w, Admit(cmd)) && now < cmd.deadline
    requires !Acceptable(cmd, w.me, cmd.epoch, now, session)
    ensures Leads(w, w') && Quiet(w', cmd.epoch) && w'.native == w.native
    ensures w'.g.rows == w.g.rows[cmd.op := Row(cmd, OpState.Failed, NotSent, None)]
  {
    ReachableInv(w);
    Arrived(w, cmd, now);
    RunsExactly(cmd, w.me, cmd.epoch, now, session, freshItem);
    var w1 := Noted(w, cmd);
    var w2 := HandlerTurnsDown(w1, cmd, Proceed(now, session, freshItem, true, false));
    LeadsJoin(w, w1, w2);
    LeadsKeeps(w, w2);
    var row := Row(cmd, OpState.Failed, NotSent, None);
    Answering(w, cmd, w2, RepRejected, row);
    w' := WithLink(WithRow(w2, cmd.op, row), cmd.epoch, QUIET);
    LeadsJoin(w, w2, w');
  }

  // ----- a doubt, settled by the journal -----

  // Both sides are free for a new connection.
  predicate Apart(w: World) {
    w.g.pc.Idle? && !w.g.revoked && !w.n.link.Online? && w.n.pc.NIdle?
  }

  function Connected(w: World, l: Link, link: NodeLink): World {
    w.(g := w.g.(epoch := w.g.epoch + 1, registered := Some(w.g.epoch + 1)), links := w.links[w.g.epoch + 1 := l], n := w.n.(link := link))
  }

  lemma {:induction false} Dialled(w: World, op: Id)
    requires Apart(w) && op in w.g.rows && Open(w.g.rows[op].state)
    ensures Leads(w, Connected(w, Link([Ready] + [Query(op)], [], [], []), Dialing(w.g.epoch + 1)))
  {
    var w' := Connected(w, Link([Ready] + [Query(op)], [], [], []), Dialing(w.g.epoch + 1));
    assert seq(|[op]|, i requires 0 <= i < |[op]| => Query([op][i])) == [Query(op)];
    LeadsOne(w, Connect([op], true), w');
  }

  // The first frame of a connection completes it.
  lemma {:induction false} Greeted(w: World, more: seq<Down>)
    requires Apart(w)
    ensures Leads(Connected(w, Link([Ready] + more, [], [], []), Dialing(w.g.epoch + 1)),
                  Connected(w, Link(more, [], [], []), Online(w.g.epoch + 1)))
  {
    var e := w.g.epoch + 1;
    var w1 := Connected(w, Link([Ready] + more, [], [], []), Dialing(e));
    var w2 := WithLink(w1, e, Link(more, [], [Ready], []));
    var w3 := Connected(w, Link(more, [], [], []), Online(e));
    Carried(w1, e, Ready, more, 0);
    assert [Ready][1..] == [];
    assert w2.links[e := Link(more, [], [], [])] == w3.links;
    LeadsOne(w2, Read(true), w3);
    LeadsJoin(w1, w2, w3);
  }

  function JournalReport(w: World, op: Id): Report {
    if op in w.n.disk.journal then ReportOf(w.n.disk.journal[op]) else NotSeen
  }

  lemma {:induction false} Queried(w: World, op: Id)
    requires Apart(w) && Saved(w.n)
    ensures Leads(Connected(w, Link([Query(op)], [], [], []), Online(w.g.epoch + 1)),
                  Connected(w, Link([], [], [], [Up(true, op, JournalReport(w, op))]), Online(w.g.epoch + 1)))
  {
    var e := w.g.epoch + 1;
    var w1 := Connected(w, Link([Query(op)], [], [], []), Online(e));
    var w2 := WithLink(w1, e, Link([], [], [Query(op)], []));
    var w3 := Connected(w, Link([], [], [], [Up(true, op, JournalReport(w, op))]), Online(e));
    assert [Query(op)] + [] == [Query(op)] && [Query(op)][1..] == [];
    Carried(w1, e, Query(op), [], 0);
    assert [] + [Up(true, op, JournalReport(w, op))] == [Up(true, op, JournalReport(w, op))];
    assert w2.links[e := w3.links[e]] == w3.links;
    LeadsOne(w2, Read(true), w3);
    LeadsJoin(w1, w2, w3);
  }

  // What the journal says about the operation.
  predicate SettledBy(w: World, op: Id, row: Row, row': Row) {
    if op !in w.n.disk.journal then row' == Row(row.cmd, OpState.Failed, NotSent, None)
    else
      match w.n.disk.journal[op].stage
      case JConfirmed(r) => row' == Row(row.cmd, Confirmed, OutDelivered, Some(r))
      case JRejected => row' == Row(row.cmd, OpState.Failed, NotSent, None)
      case JDelivered => row' == Row(row.cmd, Delivered, OutDelivered, None)
      case _ => row' == Row(row.cmd, Reconciling, row.outbox, None)
  }

  lemma {:induction false} Asked(w: World, op: Id)
    requires Inv(w) && Apart(w) && op in w.g.rows && Open(w.g.rows[op].state)
    ensures Leads(w, Connected(w, Link([], [], [], [Up(true, op, JournalReport(w, op))]), Online(w.g.epoch + 1)))
  {
    var e := w.g.epoch + 1;
    var w1 := Connected(w, Link([Ready] + [Query(op)], [], [], []), Dialing(e));
    var w2 := Connected(w, Link([Query(op)], [], [], []), Online(e));
    var w3 := Connected(w, Link([], [], [], [Up(true, op, JournalReport(w, op))]), Online(e));
    Dialled(w, op);
    Greeted(w, [Query(op)]);
    Queried(w, op);
    LeadsJoin(w, w1, w2);
    LeadsJoin(w, w2, w3);
  }

  lemma {:induction false} ReportSettles(w: World, op: Id, row: Row, row': Row)
    requires !Over(row) && Taken(row, Up(true, op, JournalReport(w, op)), true, row')
    ensures SettledBy(w, op, row, row')
  {
    if op in w.n.disk.journal { ReportExactly(w.n.disk.journal[op]); }
  }

  // The answer on the new connection, taken in.
  lemma {:induction false} AnswerTaken(w3: World, e: nat, m: Up) returns (w': World)
    requires Inv(w3) && w3.g.pc.Idle? && w3.g.registered == Some(e) && w3.n.link == Online(e) && w3.n.pc.NIdle?
    requires e in w3.links && w3.links[e] == Link([], [], [], [m])
    ensures Leads(w3, w') && Quiet(w', e) && w'.native == w3.native && w'.n == w3.n
    ensures m.op in w3.g.rows && OnlyRow(w3.g.rows, w'.g.rows, m.op) && Taken(w3.g.rows[m.op], m, true, w'.g.rows[m.op])
  {
    assert [m] + [] == [m] && m in w3.links[e].up && ReportOk(w3, e, m);
    ReportTaken(w3, e, m, true);
    var row := Acknowledge(w3.g, w3.me, e, m, true).0.rows[m.op];
    TakenIn(w3, e, m, [], row);
    w' := WithLink(WithRow(w3, m.op, row), e, QUIET);
  }

  // Whatever happened to an open operation, one reconnection is enough to learn what the
  // Node's journal has of it: confirmed with the stored receipt, failed, delivered, or a call
  // whose outcome the Node does not know itself.
  lemma {:induction false} DoubtResolved(w: World, op: Id) returns (w': World)
    requires Reachable(w) && Apart(w) && op in w.g.rows && Open(w.g.rows[op].state)
    ensures Leads(w, w') && Quiet(w', w.g.epoch + 1) && w'.native == w.native && w'.n.disk == w.n.disk
    ensures OnlyRow(w.g.rows, w'.g.rows, op) && SettledBy(w, op, w.g.rows[op], w'.g.rows[op])
  {
    var e, m := w.g.epoch + 1, Up(true, op, JournalReport(w, op));
    var w3 := Connected(w, Link([], [], [], [m]), Online(e));
    ReachableInv(w);
    Asked(w, op);
    LeadsKeeps(w, w3);
    w' := AnswerTaken(w3, e, m);
    LeadsJoin(w, w3, w');
    ReportSettles(w, op, w.g.rows[op], w'.g.rows[op]);
  }
}
