// The invariant of source ingestion and what it buys.
module IngestSafety {
  import opened Basics
  import opened IngestWorld

  // The events of one session, in order.
  function Of(s: seq<Event>, session: Id): seq<Event> {
    if s == [] then []
    else (if s[0].session == session then [s[0]] else []) + Of(s[1..], session)
  }

  lemma {:induction false} OfConcat(a: seq<Event>, b: seq<Event>, session: Id)
    ensures Of(a + b, session) == Of(a, session) + Of(b, session)
  {
    if a == [] {
      assert a + b == b;
    } else {
      assert (a + b)[0] == a[0] && (a + b)[1..] == a[1..] + b;
      OfConcat(a[1..], b, session);
    }
  }

  lemma OfOne(e: Event, session: Id)
    ensures Of([e], session) == if e.session == session then [e] else []
  {
  }

  // ----- the invariant -----

  // Durable history: number i+1 stands at place i, under an id drawn for that place only.
  ghost predicate HistoryOk(w: World) {
    forall x, i :: x in w.history && 0 <= i < |w.history[x]| ==> Placed(w, w.history[x][i], x, i + 1)
  }

  predicate Placed(w: World, e: Event, x: Id, n: nat) {
    e.session == x && e.number == n && e.id in w.drawn && w.drawn[e.id] == (x, n)
  }

  ghost predicate Window(s: seq<Event>, all: seq<Event>, j: nat, m: nat) {
    j <= m <= |all| && s == all[j..m]
  }

  // A spool holds a tail of each session's history that covers all that was not applied.
  ghost predicate Covers(w: World, s: Store, pending: seq<Event>) {
    forall x :: Covered(w, s, pending, x)
  }

  ghost predicate Covered(w: World, s: Store, pending: seq<Event>, x: Id) {
    exists k: nat :: Spooled(w, s, pending, x, k)
  }

  ghost predicate Spooled(w: World, s: Store, pending: seq<Event>, x: Id, k: nat) {
    && k <= Last(w.g, x) && k <= |History(w, x)|
    && Of(s.spool, x) == History(w, x)[k..] + Of(pending, x)
    && Number(s, x) == |History(w, x)| + |Of(pending, x)|
  }

  function Pending(n: Node): seq<Event> {
    if n.pc.Save? && n.pc.pending.Some? then [n.pc.pending.value] else []
  }

  ghost predicate PendingOk(w: World, e: Event) {
    Placed(w, e, e.session, |History(w, e.session)| + 1)
  }

  ghost predicate NodeOk(w: World) {
    && Covers(w, w.n.disk, []) && Covers(w, w.n.mem, Pending(w.n))
    && (Pending(w.n) != [] ==>
          PendingOk(w, Pending(w.n)[0]))
    && (!w.n.pc.Idle? ==> w.n.link.Up? && w.n.rest == [])
  }

  // Everything the Node has still to say on its connection.
  function Tail(n: Node): seq<Event> {
    n.rest + (if n.pc.Transmit? then [n.pc.e] else [])
  }

  ghost predicate Flows(w: World, x: nat, session: Id, j: nat, m: nat)
    requires x in w.wires
  {
    && Window(Of(w.wires[x].up, session), History(w, session), j, m)
    && (w.wires[x].clean ==> j <= Last(w.g, session))
    && (w.n.link == Up(x) ==> Of(Tail(w.n), session) == History(w, session)[m..])
  }

  ghost predicate Flowing(w: World, x: nat, session: Id)
    requires x in w.wires
  {
    exists j: nat, m: nat :: Flows(w, x, session, j, m)
  }

  ghost predicate Flow(w: World) {
    && (forall x :: x in w.wires ==> x <= w.g.epoch)
    && (w.g.registered.Some? ==> w.g.registered.value in w.wires)
    && (!w.n.link.Offline? ==> w.n.link.epoch in w.wires)
    && (w.g.registered.Some? && !w.n.link.Offline? ==> w.g.registered.value == w.n.link.epoch)
    && (w.g.registered.Some? ==>
          && (w.n.link.Dialing? ==> w.wires[w.g.registered.value].up == [])
          && forall session :: Flowing(w, w.g.registered.value, session))
  }

  ghost predicate AcksOk(w: World) {
    forall x, a :: x in w.wires && a in w.wires[x].down ==> a.number <= Last(w.g, a.session)
  }

  // Anchors grow, strictly so whenever the event entered the log.
  ghost predicate AnchorsOk(s: Session) {
    && |s.anchors| == |s.wrote| == s.last
    && (forall i :: 0 <= i < s.last ==> s.anchors[i] <= s.sequence)
    && (forall i, j :: 0 <= i < j < s.last ==> s.anchors[i] <= s.anchors[j])
    && (forall i, j :: 0 <= i < j < s.last && s.wrote[j] ==> s.anchors[i] < s.anchors[j])
  }

  // One session: a prefix of its history, each event under its own anchor.
  ghost predicate SessionOk(w: World, x: Id)
    requires x in w.g.sessions
  {
    var s := w.g.sessions[x];
    s.last <= |History(w, x)| && s.applied == History(w, x)[..s.last] && AnchorsOk(s)
  }

  ghost predicate ReceiptOk(w: World, id: Id)
    requires id in w.g.receipts
  {
    var r := w.g.receipts[id];
    r.session in w.g.sessions && Cites(History(w, r.session), w.g.sessions[r.session].anchors, id, r)
  }

  predicate Cites(history: seq<Event>, anchors: seq<nat>, id: Id, r: SourceReceipt) {
    && 1 <= r.number <= |anchors| && r.number <= |history|
    && history[r.number - 1].id == id && history[r.number - 1].body == r.body
    && anchors[r.number - 1] == r.sequence
  }

  ghost predicate GatewayOk(w: World) {
    && (forall x :: x in w.g.sessions ==> SessionOk(w, x))
    && (forall id :: id in w.g.receipts ==> ReceiptOk(w, id))
  }

  ghost predicate Inv(w: World) {
    HistoryOk(w) && NodeOk(w) && Flow(w) && AcksOk(w) && GatewayOk(w)
  }

  // ----- Gateway steps -----

  // The Gateway moved on without touching the history, the Node, or losing progress.
  ghost predicate GatewayMoves(w: World, w': World) {
    && w'.n == w.n && w'.history == w.history && w'.drawn == w.drawn
    && (forall x :: Last(w.g, x) <= Last(w'.g, x))
  }

  lemma CoversLater(w: World, w': World, s: Store, pending: seq<Event>)
    requires Covers(w, s, pending) && w'.history == w.history && forall x :: Last(w.g, x) <= Last(w'.g, x)
    ensures Covers(w', s, pending)
  {
    forall x ensures Covered(w', s, pending, x) {
      assert Covered(w, s, pending, x);
      var k: nat :| Spooled(w, s, pending, x, k);
      assert Spooled(w', s, pending, x, k);
    }
  }

  lemma MoveKeepsNode(w: World, w': World)
    requires HistoryOk(w) && NodeOk(w) && GatewayMoves(w, w')
    ensures HistoryOk(w') && NodeOk(w')
  {
    CoversLater(w, w', w.n.disk, []);
    CoversLater(w, w', w.n.mem, Pending(w.n));
  }

  // Tables change, the wires do not.
  lemma TablesKeep(w: World, w': World)
    requires Inv(w) && GatewayMoves(w, w') && w'.wires == w.wires && w'.g.epoch == w.g.epoch
    requires w'.g.registered == w.g.registered || w'.g.registered.None?
    requires GatewayOk(w')
    ensures Inv(w')
  {
    MoveKeepsNode(w, w');
    if w'.g.registered.Some? {
      var x := w.g.registered.value;
      forall session ensures Flowing(w', x, session) {
        assert Flowing(w, x, session);
        var j: nat, m: nat :| Flows(w, x, session, j, m);
        assert Flows(w', x, session, j, m);
      }
    }
  }

  lemma NewSessionKeeps(w: World, s: Step)
    requires Inv(w) && Enabled(w, s) && s.NewSession?
    ensures Inv(Apply(w, s))
  {
    var w' := Apply(w, s);
    forall x | x in w'.g.sessions ensures SessionOk(w', x) { if x != s.session { assert SessionOk(w, x); } }
    forall id | id in w'.g.receipts ensures ReceiptOk(w', id) { assert ReceiptOk(w, id); }
    TablesKeep(w, w');
  }

  // Receipts stay good while histories and anchors only grow at the end.
  lemma ReceiptsStay(w: World, w': World)
    requires forall id :: id in w.g.receipts ==> ReceiptOk(w, id)
    requires w'.history == w.history
    requires forall x :: x in w.g.sessions ==> x in w'.g.sessions && w.g.sessions[x].anchors <= w'.g.sessions[x].anchors
    ensures forall id :: id in w.g.receipts && id in w'.g.receipts && w'.g.receipts[id] == w.g.receipts[id] ==> ReceiptOk(w', id)
  {
    forall id | id in w.g.receipts && id in w'.g.receipts && w'.g.receipts[id] == w.g.receipts[id] ensures ReceiptOk(w', id) {
      assert ReceiptOk(w, id);
    }
  }

  lemma SessionTouched(w: World, s: Step)
    requires GatewayOk(w) && Enabled(w, s) && (s.OtherAppend? || s.Purge?)
    ensures GatewayOk(Apply(w, s))
  {
    var w' := Apply(w, s);
    assert SessionOk(w, s.session) && SessionOk(w', s.session);
    ReceiptsStay(w, w');
  }

  lemma ReceiptsDropped(w: World, w': World)
    requires GatewayOk(w) && w'.history == w.history && w'.g.sessions == w.g.sessions
    requires forall id :: id in w'.g.receipts ==> id in w.g.receipts && w'.g.receipts[id] == w.g.receipts[id]
    ensures GatewayOk(w')
  {
    forall x | x in w'.g.sessions ensures SessionOk(w', x) { assert SessionOk(w, x); }
    forall id | id in w'.g.receipts ensures ReceiptOk(w', id) { assert ReceiptOk(w, id); }
  }

  lemma TableStepKeeps(w: World, s: Step)
    requires Inv(w) && Enabled(w, s) && (s.OtherAppend? || s.Purge? || s.DropReceipts? || s.StopPeer?)
    ensures Inv(Apply(w, s))
  {
    if s.OtherAppend? || s.Purge? { SessionTouched(w, s); } else { ReceiptsDropped(w, Apply(w, s)); }
    TablesKeep(w, Apply(w, s));
  }

  // What flows on the registered wire when neither it nor the Node's tail changes.
  lemma FlowStays(w: World, w': World)
    requires Flow(w) && w'.g == w.g && w'.history == w.history
    requires w'.wires.Keys == w.wires.Keys
    requires forall x :: x in w.wires ==> w'.wires[x].up == w.wires[x].up && w'.wires[x].clean == w.wires[x].clean
    requires w'.n.link == w.n.link || w'.n.link.Offline?
    requires w'.n.link.Offline? || Tail(w'.n) == Tail(w.n)
    ensures Flow(w')
  {
    if w'.g.registered.Some? {
      var x := w.g.registered.value;
      forall session ensures Flowing(w', x, session) {
        assert Flowing(w, x, session);
        var j: nat, m: nat :| Flows(w, x, session, j, m);
        assert Flows(w', x, session, j, m);
      }
    }
  }

  // ----- taking one event -----

  // The oldest event on the registered wire is the history's own, and on a clean wire it
  // never skips a number.
  lemma HeadKnown(w: World, x: nat)
    requires Inv(w) && w.g.registered == Some(x) && w.wires[x].up != []
    ensures var e := w.wires[x].up[0];
      && 1 <= e.number <= |History(w, e.session)| && History(w, e.session)[e.number - 1] == e
      && (w.wires[x].clean ==> e.number <= Last(w.g, e.session) + 1)
  {
    var e := w.wires[x].up[0];
    assert Flowing(w, x, e.session);
    var j: nat, m: nat :| Flows(w, x, e.session, j, m);
    assert Of(w.wires[x].up, e.session)[0] == e;
    assert History(w, e.session)[j] == e;
    assert e.session in w.history;
  }

  lemma AnchorAppended(s: Session, s': Session, top: nat, wrote: bool)
    requires AnchorsOk(s) && s'.last == s.last + 1 && s'.sequence == top
    requires s'.anchors == s.anchors + [top] && s'.wrote == s.wrote + [wrote]
    requires if wrote then s.sequence < top else s.sequence == top
    ensures AnchorsOk(s')
  {
  }

  // The row of the session that took in the next event.
  lemma AppliedSession(w: World, w': World, e: Event, s: Session, top: nat)
    requires e.session in w.g.sessions && s == w.g.sessions[e.session] && SessionOk(w, e.session)
    requires e.number == s.last + 1 <= |History(w, e.session)| && History(w, e.session)[s.last] == e
    requires if s.purged then top == s.sequence else s.sequence < top
    requires w'.history == w.history && e.session in w'.g.sessions
    requires w'.g.sessions[e.session] == Session(e.number, top, s.purged, s.applied + [e], s.anchors + [top], s.wrote + [!s.purged])
    ensures SessionOk(w', e.session) && s.anchors <= w'.g.sessions[e.session].anchors
  {
    assert History(w, e.session)[..s.last + 1] == History(w, e.session)[..s.last] + [e];
    AnchorAppended(s, w'.g.sessions[e.session], top, !s.purged);
  }

  // `source` on the next event of the history keeps every session a prefix of its history.
  lemma AppliedKeeps(w: World, w': World, e: Event, s: Session, top: nat)
    requires GatewayOk(w) && e.session in w.g.sessions && s == w.g.sessions[e.session]
    requires e.number == s.last + 1 <= |History(w, e.session)| && History(w, e.session)[s.last] == e
    requires if s.purged then top == s.sequence else s.sequence < top
    requires w'.history == w.history
    requires w'.g.sessions == w.g.sessions[e.session := Session(e.number, top, s.purged, s.applied + [e], s.anchors + [top], s.wrote + [!s.purged])]
    requires w'.g.receipts == w.g.receipts[e.id := SourceReceipt(e.session, e.number, e.body, top)]
    ensures GatewayOk(w')
  {
    assert SessionOk(w, e.session);
    AppliedSession(w, w', e, s, top);
    forall z | z in w'.g.sessions ensures SessionOk(w', z) { if z != e.session { assert SessionOk(w, z); } }
    AppliedReceipts(w, w', e, s, top);
  }

  lemma AppliedReceipts(w: World, w': World, e: Event, s: Session, top: nat)
    requires forall id :: id in w.g.receipts ==> ReceiptOk(w, id)
    requires e.session in w.g.sessions && s == w.g.sessions[e.session] && |s.anchors| == s.last
    requires e.number == s.last + 1 <= |History(w, e.session)| && History(w, e.session)[s.last] == e
    requires w'.history == w.history && forall x :: x in w.g.sessions && x != e.session ==> x in w'.g.sessions && w'.g.sessions[x] == w.g.sessions[x]
    requires e.session in w'.g.sessions && w'.g.sessions[e.session].anchors == s.anchors + [top]
    requires w'.g.receipts == w.g.receipts[e.id := SourceReceipt(e.session, e.number, e.body, top)]
    ensures forall id :: id in w'.g.receipts ==> ReceiptOk(w', id)
  {
    ReceiptsStay(w, w');
    assert Cites(History(w', e.session), w'.g.sessions[e.session].anchors, e.id, w'.g.receipts[e.id]);
    forall id | id in w'.g.receipts ensures ReceiptOk(w', id) {
      if id != e.id { assert id in w.g.receipts && w'.g.receipts[id] == w.g.receipts[id]; }
    }
  }

  lemma SamePlace(w: World, x: Id, i: int, y: Id, j: int)
    requires HistoryOk(w) && 0 <= i < |History(w, x)| && 0 <= j < |History(w, y)|
    requires History(w, x)[i].id == History(w, y)[j].id
    ensures x == y && i == j
  {
    assert Placed(w, w.history[x][i], x, i + 1) && Placed(w, w.history[y][j], y, j + 1);
  }

  // A receipt found under an event's id is that event's own receipt.
  lemma ReceiptIdentifies(w: World, e: Event)
    requires HistoryOk(w) && GatewayOk(w) && e.id in w.g.receipts
    requires 1 <= e.number <= |History(w, e.session)| && History(w, e.session)[e.number - 1] == e
    ensures var r := w.g.receipts[e.id]; r.session == e.session && r.number == e.number && r.body == e.body
    ensures e.number <= Last(w.g, e.session)
  {
    var r := w.g.receipts[e.id];
    ReceiptCites(w, e.id);
    SamePlace(w, r.session, r.number - 1, e.session, e.number - 1);
  }

  lemma ReceiptCites(w: World, id: Id)
    requires GatewayOk(w) && id in w.g.receipts
    ensures var r := w.g.receipts[id];
      && 1 <= r.number <= Last(w.g, r.session) && r.number <= |History(w, r.session)|
      && History(w, r.session)[r.number - 1].id == id && History(w, r.session)[r.number - 1].body == r.body
  {
    assert ReceiptOk(w, id) && SessionOk(w, w.g.receipts[id].session);
  }

  // What `source` answers to an honest event: an id is never found reused, an
  // acknowledgement never exceeds what was applied, and the only conflict is a number
  // other than the next one.
  lemma SourceOutcome(g: Gateway, e: Event, valid: bool, appended: nat)
    requires e.id in g.receipts ==>
      var r := g.receipts[e.id]; r.session == e.session && r.number == e.number && r.body == e.body && e.number <= Last(g, e.session)
    ensures var (g', o) := Source(g, e, valid, appended);
      && (forall x :: Last(g', x) == Last(g, x) + (if o.Applied? && x == e.session then 1 else 0))
      && (o.Applied? || o.Duplicate? ==> o.ack.session == e.session && o.ack.number == e.number <= Last(g', e.session))
      && (o.Applied? ==> e.number == Last(g', e.session))
      && (o.Conflict? ==> e.id !in g.receipts && e.number != Last(g, e.session) + 1)
      && (!o.Applied? ==> g' == g)
  {
  }

  lemma HeadWindow(up: seq<Event>, all: seq<Event>, session: Id, j: nat, m: nat)
    requires up != [] && Window(Of(up, session), all, j, m)
    ensures var mine := up[0].session == session;
      && (mine ==> j < m && all[j] == up[0])
      && Window(Of(up[1..], session), all, if mine then j + 1 else j, m)
  {
    if up[0].session == session {
      assert Of(up, session)[0] == up[0] && Of(up, session)[1..] == Of(up[1..], session);
      assert all[j..m][1..] == all[j + 1..m];
    } else {
      assert Of(up, session) == Of(up[1..], session);
    }
  }

  // The registered wire after its oldest event was taken.
  lemma FlowAfterHead(w: World, w': World, x: nat, session: Id)
    requires HistoryOk(w) && x in w.wires && Flowing(w, x, session) && w.wires[x].up != []
    requires x in w'.wires && w'.wires[x].up == w.wires[x].up[1..]
    requires w'.history == w.history && w'.n == w.n && Last(w.g, session) <= Last(w'.g, session)
    requires w'.wires[x].clean ==> w.wires[x].clean
    requires var e := w.wires[x].up[0]; w'.wires[x].clean && e.session == session ==> e.number <= Last(w'.g, session)
    ensures Flowing(w', x, session)
  {
    var e, all := w.wires[x].up[0], History(w, session);
    var j: nat, m: nat :| Flows(w, x, session, j, m);
    HeadWindow(w.wires[x].up, all, session, j, m);
    assert History(w', session) == all;
    if e.session == session {
      assert session in w.history && Placed(w, w.history[session][j], session, j + 1);
      assert Flows(w', x, session, j + 1, m);
    } else {
      assert Flows(w', x, session, j, m);
    }
  }

  lemma HonestOutcome(w: World, e: Event, valid: bool, appended: nat)
    requires HistoryOk(w) && GatewayOk(w)
    requires 1 <= e.number <= |History(w, e.session)| && History(w, e.session)[e.number - 1] == e
    ensures var (g, o) := Source(w.g, e, valid, appended);
      && (forall x :: Last(w.g, x) <= Last(g, x))
      && (o.Applied? || o.Duplicate? ==> o.ack.session == e.session && o.ack.number == e.number <= Last(g, e.session))
      && (o.Conflict? ==> e.id !in w.g.receipts && e.number != Last(w.g, e.session) + 1)
      && (!o.Applied? ==> g == w.g)
  {
    if e.id in w.g.receipts { ReceiptIdentifies(w, e); }
    SourceOutcome(w.g, e, valid, appended);
  }

  lemma TakenTables(w: World, w': World, e: Event, valid: bool, appended: nat)
    requires GatewayOk(w) && w'.history == w.history
    requires w'.g.sessions == Source(w.g, e, valid, appended).0.sessions && w'.g.receipts == Source(w.g, e, valid, appended).0.receipts
    requires 1 <= e.number <= |History(w, e.session)| && History(w, e.session)[e.number - 1] == e
    requires !Source(w.g, e, valid, appended).1.Applied? ==> Source(w.g, e, valid, appended).0 == w.g
    ensures GatewayOk(w')
  {
    var w1 := w.(g := Source(w.g, e, valid, appended).0);
    if Source(w.g, e, valid, appended).1.Applied? {
      AppliedKeeps(w, w1, e, w.g.sessions[e.session], w1.g.sessions[e.session].sequence);
    }
    assert GatewayOk(w1);
    GatewayKept(w1, w');
  }

  lemma TakeKeeps(w: World, s: Step)
    requires Inv(w) && Enabled(w, s) && s.Take?
    ensures Inv(Apply(w, s))
  {
    var w', x := Apply(w, s), s.wire;
    if w.g.registered != Some(x) {
      WireDropped(w, w', x);
    } else {
      HeadKnown(w, x);
      TakenKeeps(w, w', s);
    }
  }

  lemma TakenKeeps(w: World, w': World, s: Step)
    requires Inv(w) && Enabled(w, s) && s.Take? && w' == Apply(w, s) && w.g.registered == Some(s.wire)
    requires var e := w.wires[s.wire].up[0]; 1 <= e.number <= |History(w, e.session)| && History(w, e.session)[e.number - 1] == e
    ensures Inv(w')
  {
    var e := w.wires[s.wire].up[0];
    TakenProgress(w, w', s);
    TakenTables(w, w', e, s.valid, s.appended);
    MoveKeepsNode(w, w');
    TakenFlow(w, w', s);
    TakenAcks(w, w', s);
  }

  lemma TakenProgress(w: World, w': World, s: Step)
    requires HistoryOk(w) && GatewayOk(w) && Enabled(w, s) && s.Take? && w' == Apply(w, s) && w.g.registered == Some(s.wire)
    requires var e := w.wires[s.wire].up[0]; 1 <= e.number <= |History(w, e.session)| && History(w, e.session)[e.number - 1] == e
    ensures GatewayMoves(w, w') && w'.g.sessions == Source(w.g, w.wires[s.wire].up[0], s.valid, s.appended).0.sessions
    ensures w'.g.receipts == Source(w.g, w.wires[s.wire].up[0], s.valid, s.appended).0.receipts
    ensures !Source(w.g, w.wires[s.wire].up[0], s.valid, s.appended).1.Applied? ==> Source(w.g, w.wires[s.wire].up[0], s.valid, s.appended).0 == w.g
    ensures var e := w.wires[s.wire].up[0]; var o := Source(w.g, e, s.valid, s.appended).1;
      && (o.Applied? || o.Duplicate? ==> o.ack.session == e.session && o.ack.number == e.number <= Last(w'.g, e.session))
      && (o.Conflict? ==> e.number != Last(w.g, e.session) + 1)
  {
    var e := w.wires[s.wire].up[0];
    var g := Source(w.g, e, s.valid, s.appended).0;
    TakenWire(w, s);
    HonestOutcome(w, e, s.valid, s.appended);
    assert w'.g.sessions == g.sessions;
    forall z ensures Last(w.g, z) <= Last(w'.g, z) { assert Last(w'.g, z) == Last(g, z); }
  }

  // The acknowledgement that leaves was already applied.
  lemma TakenAcks(w: World, w': World, s: Step)
    requires AcksOk(w) && Enabled(w, s) && s.Take? && w.g.registered == Some(s.wire) && w' == Apply(w, s)
    requires forall x :: Last(w.g, x) <= Last(w'.g, x)
    requires var e := w.wires[s.wire].up[0]; var o := Source(w.g, e, s.valid, s.appended).1;
      o.Applied? || o.Duplicate? ==> o.ack.session == e.session && o.ack.number <= Last(w'.g, e.session)
    ensures AcksOk(w')
  {
    forall y, a | y in w'.wires && a in w'.wires[y].down ensures a.number <= Last(w'.g, a.session) {
      if a in w.wires[y].down { assert a.number <= Last(w.g, a.session); }
    }
  }

  lemma TakenWire(w: World, s: Step)
    requires Enabled(w, s) && s.Take? && w.g.registered == Some(s.wire)
    ensures var w', x := Apply(w, s), s.wire; var e := w.wires[x].up[0]; var (g, o) := Source(w.g, e, s.valid, s.appended);
      && w'.n == w.n && w'.history == w.history && w'.drawn == w.drawn && w'.wires.Keys == w.wires.Keys
      && w'.g == g.(registered := w'.g.registered) && (w'.g.registered == g.registered || w'.g.registered.None?)
      && w'.wires[x].up == w.wires[x].up[1..]
      && (w'.wires[x].clean ==> w.wires[x].clean && (o.Refused? ==> e.number <= Last(w.g, e.session)))
  {
    var e := w.wires[s.wire].up[0];
    match Source(w.g, e, s.valid, s.appended).1 {
      case Conflict => case Refused => case Duplicate(_) => case Applied(_) =>
    }
  }

  lemma SourceKeepsEpoch(g: Gateway, e: Event, valid: bool, appended: nat)
    ensures Source(g, e, valid, appended).0.epoch == g.epoch && Source(g, e, valid, appended).0.registered == g.registered
  {
  }

  lemma TakenFlow(w: World, w': World, s: Step)
    requires Inv(w) && Enabled(w, s) && s.Take? && w.g.registered == Some(s.wire) && w' == Apply(w, s)
    requires forall x :: Last(w.g, x) <= Last(w'.g, x)
    requires var e := w.wires[s.wire].up[0]; var o := Source(w.g, e, s.valid, s.appended).1;
      && (o.Applied? || o.Duplicate? ==> e.number <= Last(w'.g, e.session))
      && (o.Conflict? ==> e.number != Last(w.g, e.session) + 1)
    ensures Flow(w')
  {
    var x := s.wire;
    TakenWire(w, s);
    SourceKeepsEpoch(w.g, w.wires[x].up[0], s.valid, s.appended);
    HeadKnown(w, x);
    if w'.g.registered.Some? {
      forall session ensures Flowing(w', x, session) {
        assert Flowing(w, x, session);
        FlowAfterHead(w, w', x, session);
      }
    }
  }

  lemma GatewayKept(w: World, w': World)
    requires GatewayOk(w) && w'.g.sessions == w.g.sessions && w'.g.receipts == w.g.receipts && w'.history == w.history
    ensures GatewayOk(w')
  {
    forall id | id in w'.g.receipts ensures ReceiptOk(w', id) { assert ReceiptOk(w, id); }
    forall z | z in w'.g.sessions ensures SessionOk(w', z) { assert SessionOk(w, z); }
  }

  // Bytes of a connection nobody listens to disappear.
  lemma WireDropped(w: World, w': World, x: nat)
    requires Inv(w) && x in w.wires && w.wires[x].up != [] && w.g.registered != Some(x)
    requires w' == w.(wires := w.wires[x := w.wires[x].(up := w.wires[x].up[1..])])
    ensures Inv(w')
  {
    MoveKeepsNode(w, w');
    GatewayKept(w, w');
    if w'.g.registered.Some? {
      var y := w.g.registered.value;
      forall session ensures Flowing(w', y, session) {
        assert Flowing(w, y, session);
        var j: nat, m: nat :| Flows(w, y, session, j, m);
        assert Flows(w', y, session, j, m);
      }
    }
  }

  lemma CrashGatewayKeeps(w: World, s: Step)
    requires Inv(w) && s.CrashGateway?
    ensures Inv(Apply(w, s))
  {
    var w' := Apply(w, s);
    MoveKeepsNode(w, w');
    GatewayKept(w, w');
    forall x, a | x in w'.wires && a in w'.wires[x].down ensures a.number <= Last(w'.g, a.session) {
      assert a in w.wires[x].down;
    }
  }

  lemma ConnectKeeps(w: World)
    requires Inv(w) && Enabled(w, Connect)
    ensures Inv(Apply(w, Connect))
  {
    var w', x := Apply(w, Connect), w.g.epoch + 1;
    CoversLater(w, w', w.n.disk, []);
    CoversLater(w, w', w.n.mem, Pending(w.n));
    GatewayKept(w, w');
    forall session ensures Flowing(w', x, session) {
      assert Flows(w', x, session, 0, 0);
    }
  }

  // ----- Node steps -----

  // The Node gives up its connection, or its process dies and only the disk survives.
  lemma NodeLeaves(w: World, w': World)
    requires Inv(w) && w'.g == w.g && w'.wires == w.wires && w'.history == w.history
    requires w'.drawn == w.drawn && w'.n.disk == w.n.disk && w'.n.rest == [] && w'.n.pc.Idle? && w'.n.link.Offline?
    requires w'.n.mem == w.n.disk || (w'.n.mem == w.n.mem && Pending(w.n) == [])
    ensures Inv(w')
  {
    GatewayKept(w, w');
    CoversLater(w, w', w.n.disk, []);
    if Pending(w.n) == [] { CoversLater(w, w', w.n.mem, []); }
    FlowStays(w, w');
  }

  // The Node repeats its spool: what it will say is exactly what it has durably kept.
  lemma StartKeeps(w: World)
    requires Inv(w) && Enabled(w, Start)
    ensures Inv(Apply(w, Start))
  {
    var w' := Apply(w, Start);
    GatewayKept(w, w');
    CoversLater(w, w', w.n.disk, []);
    CoversLater(w, w', w.n.mem, []);
    if w'.g.registered.Some? {
      var x := w.g.registered.value;
      forall session ensures Flowing(w', x, session) {
        assert Covered(w, w.n.mem, [], session);
        var k: nat :| Spooled(w, w.n.mem, [], session, k);
        assert Tail(w'.n) == w.n.mem.spool;
        assert Flows(w', x, session, k, k);
      }
    }
  }

  // One event leaves the Node: the head of what it still has to say.
  lemma PutKeeps(w: World, n: Node, e: Event, sent: bool)
    requires Inv(w) && w.n.link.Up? && w.n.link.epoch in w.wires && Tail(w.n) == [e] + Tail(n)
    requires n.link == w.n.link && n.mem == w.n.mem && n.disk == w.n.disk && n.pc.Idle? && Pending(w.n) == []
    ensures Inv(Put(w.(n := n), e, sent))
  {
    var w', x := Put(w.(n := n), e, sent), w.n.link.epoch;
    if !sent {
      NodeLeaves(w, w');
    } else {
      GatewayKept(w, w');
      CoversLater(w, w', w.n.disk, []);
      CoversLater(w, w', w.n.mem, []);
      if w'.g.registered.Some? {
        forall session ensures Flowing(w', x, session) { PutFlows(w, w', e, session); }
      }
    }
  }

  // Windows move with the events that leave.
  lemma PutWindow(up: seq<Event>, e: Event, tail: seq<Event>, all: seq<Event>, session: Id, j: nat, m: nat)
    requires Window(Of(up, session), all, j, m) && Of([e] + tail, session) == all[m..]
    ensures var m' := if e.session == session then m + 1 else m;
      Window(Of(up + [e], session), all, j, m') && Of(tail, session) == all[m'..]
  {
    OfConcat(up, [e], session);
    OfConcat([e], tail, session);
    OfOne(e, session);
    if e.session == session {
      assert all[m..][0] == e && all[m..][1..] == Of(tail, session);
      assert all[m..][1..] == all[m + 1..] && all[j..m] + [e] == all[j..m + 1];
    }
  }

  lemma PutFlows(w: World, w': World, e: Event, session: Id)
    requires w.n.link.Up? && w.n.link.epoch in w.wires && Tail(w.n) == [e] + Tail(w'.n) && Flowing(w, w.n.link.epoch, session)
    requires var x := w.n.link.epoch; x in w'.wires && w'.wires[x] == w.wires[x].(up := w.wires[x].up + [e])
    requires w'.g == w.g && w'.history == w.history && w'.n.link == w.n.link
    ensures Flowing(w', w.n.link.epoch, session)
  {
    var x, all := w.n.link.epoch, History(w, session);
    var j: nat, m: nat :| Flows(w, x, session, j, m);
    PutWindow(w.wires[x].up, e, Tail(w'.n), all, session, j, m);
    var m' := if e.session == session then m + 1 else m;
    assert Window(Of(w'.wires[x].up, session), all, j, m');
    assert Of(Tail(w'.n), session) == all[m'..];
    assert History(w', session) == all;
    assert Last(w'.g, session) == Last(w.g, session);
    assert w'.wires[x].clean == w.wires[x].clean;
    assert Flows(w', x, session, j, m');
  }

  lemma ResendKeeps(w: World, s: Step)
    requires Inv(w) && Enabled(w, s) && s.Resend?
    ensures Inv(Apply(w, s))
  {
    PutKeeps(w, w.n.(rest := w.n.rest[1..]), w.n.rest[0], s.sent);
  }

  lemma TransmitKeeps(w: World, s: Step)
    requires Inv(w) && Enabled(w, s) && s.TransmitEvent?
    ensures Inv(Apply(w, s))
  {
    PutKeeps(w, w.n.(pc := Idle), w.n.pc.e, s.sent);
  }

  // `emit` before the save.
  lemma EmitKeeps(w: World, s: Step)
    requires Inv(w) && Enabled(w, s) && s.Emit?
    ensures Inv(Apply(w, s))
  {
    var w', e := Apply(w, s), s.e;
    GatewayKept(w, w');
    CoversLater(w, w', w.n.disk, []);
    EmitCovers(w, w', e);
    EmitPending(w, w', e);
    FlowStays(w, w');
  }

  lemma EmitCovers(w: World, w': World, e: Event)
    requires Covers(w, w.n.mem, []) && e.number == Number(w.n.mem, e.session) + 1
    requires w'.history == w.history && w'.g == w.g
    ensures Covers(w', Emitted(w.n.mem, e), [e])
  {
    var s := Emitted(w.n.mem, e);
    forall x ensures Covered(w', s, [e], x) {
      assert Covered(w, w.n.mem, [], x);
      var k: nat :| Spooled(w, w.n.mem, [], x, k);
      OfConcat(w.n.mem.spool, [e], x);
      OfOne(e, x);
      assert Spooled(w', s, [e], x, k);
    }
  }

  lemma EmitPending(w: World, w': World, e: Event)
    requires HistoryOk(w) && Covers(w, w.n.mem, []) && e.id !in w.drawn && e.number == Number(w.n.mem, e.session) + 1
    requires w'.history == w.history && w'.drawn == w.drawn[e.id := (e.session, e.number)]
    ensures HistoryOk(w') && PendingOk(w', e)
  {
    assert Covered(w, w.n.mem, [], e.session);
  }

  // The save that makes an emitted event durable.
  lemma SaveEmits(w: World, w': World, e: Event)
    requires Inv(w) && w.n.pc == Save(Some(e)) && Enabled(w, SaveStore) && w' == Apply(w, SaveStore)
    ensures Inv(w')
  {
    SavedHistory(w, w', e);
    SavedCovers(w, w', e);
    SavedGateway(w, w', e);
    if w'.g.registered.Some? {
      var x := w.g.registered.value;
      assert Tail(w.n) == [] && Tail(w'.n) == [e];
      forall session ensures Flowing(w', x, session) { SavedFlows(w, w', e, x, session); }
    }
  }

  lemma SavedFlows(w: World, w': World, e: Event, x: nat, session: Id)
    requires x in w.wires && Flowing(w, x, session) && Tail(w.n) == [] && Tail(w'.n) == [e]
    requires w'.wires == w.wires && w'.g == w.g && w'.n.link == w.n.link
    requires w'.history == w.history[e.session := History(w, e.session) + [e]]
    ensures Flowing(w', x, session)
  {
    var j: nat, m: nat :| Flows(w, x, session, j, m);
    OfOne(e, session);
    var all, all' := History(w, session), History(w', session);
    assert all' == all + (if session == e.session then [e] else []);
    assert all'[j..m] == all[j..m] && all'[m..] == all[m..] + (if session == e.session then [e] else []);
    assert Flows(w', x, session, j, m);
  }

  lemma SavedHistory(w: World, w': World, e: Event)
    requires HistoryOk(w) && PendingOk(w, e) && w'.drawn == w.drawn
    requires w'.history == w.history[e.session := History(w, e.session) + [e]]
    ensures HistoryOk(w')
  {
    forall x, i | x in w'.history && 0 <= i < |w'.history[x]| ensures Placed(w', w'.history[x][i], x, i + 1) {
      if x in w.history && i < |w.history[x]| { assert Placed(w, w.history[x][i], x, i + 1); }
    }
  }

  lemma SavedCovers(w: World, w': World, e: Event)
    requires Covers(w, w.n.mem, [e]) && w'.g == w.g
    requires w'.history == w.history[e.session := History(w, e.session) + [e]]
    ensures Covers(w', w.n.mem, [])
  {
    forall x ensures Covered(w', w.n.mem, [], x) {
      assert Covered(w, w.n.mem, [e], x);
      var k: nat :| Spooled(w, w.n.mem, [e], x, k);
      OfOne(e, x);
      assert History(w', x)[k..] == History(w, x)[k..] + Of([e], x) + [];
      assert Spooled(w', w.n.mem, [], x, k);
    }
  }

  lemma SavedGateway(w: World, w': World, e: Event)
    requires GatewayOk(w) && w'.g == w.g && w'.history == w.history[e.session := History(w, e.session) + [e]]
    ensures GatewayOk(w')
  {
    forall id | id in w'.g.receipts ensures ReceiptOk(w', id) { assert ReceiptOk(w, id); }
    forall z | z in w'.g.sessions ensures SessionOk(w', z) {
      assert SessionOk(w, z);
      assert History(w', z)[..w.g.sessions[z].last] == History(w, z)[..w.g.sessions[z].last];
    }
  }

  lemma SaveKeeps(w: World)
    requires Inv(w) && Enabled(w, SaveStore)
    ensures Inv(Apply(w, SaveStore))
  {
    var w' := Apply(w, SaveStore);
    match w.n.pc.pending {
      case Some(e) => SaveEmits(w, w', e);
      case None =>
        CoversLater(w, w', w.n.mem, []);
        NodeRests(w, w');
    }
  }

  // The Node saves what it had only in memory, or prunes its spool.
  lemma NodeRests(w: World, w': World)
    requires Inv(w) && w'.g == w.g && w'.history == w.history && w'.drawn == w.drawn && Pending(w'.n) == []
    requires Covers(w', w'.n.mem, []) && Covers(w', w'.n.disk, []) && w'.n.link == w.n.link && w.n.link.Up?
    requires Tail(w'.n) == Tail(w.n) && w'.n.rest == w.n.rest && w'.n.rest == []
    requires w'.wires.Keys == w.wires.Keys && forall x :: x in w.wires ==>
      w'.wires[x].up == w.wires[x].up && w'.wires[x].clean == w.wires[x].clean && forall a :: a in w'.wires[x].down ==> a in w.wires[x].down
    ensures Inv(w')
  {
    GatewayKept(w, w');
    FlowStays(w, w');
  }

  // ----- pruning -----

  lemma {:induction false} PruneOf(spool: seq<Event>, a: Ack, session: Id)
    ensures Of(Prune(spool, a), session) == if session == a.session then Above(Of(spool, session), a.number) else Of(spool, session)
  {
    if spool != [] {
      var e := spool[0];
      PruneOf(spool[1..], a, session);
      OfConcat(if Kept(e, a) then [e] else [], Prune(spool[1..], a), session);
      OfOne(e, session);
      if session == e.session {
        assert Of(spool, session)[0] == e && Of(spool, session)[1..] == Of(spool[1..], session);
      } else {
        assert Of(spool, session) == Of(spool[1..], session);
      }
    }
  }

  // The events of a list numbered above n.
  function Above(s: seq<Event>, n: nat): seq<Event> {
    if s == [] then [] else (if s[0].number > n then [s[0]] else []) + Above(s[1..], n)
  }

  lemma {:induction false} AboveTail(all: seq<Event>, k: nat, n: nat)
    requires k <= |all| && forall i :: 0 <= i < |all| ==> all[i].number == i + 1
    ensures Above(all[k..], n) == all[if n <= k then k else if n <= |all| then n else |all|..]
    decreases |all| - k
  {
    if k < |all| {
      assert all[k..][0] == all[k] && all[k..][1..] == all[k + 1..];
      AboveTail(all, k + 1, n);
    }
  }

  lemma NothingPending(w: World, s: Store, x: Id, k: nat)
    ensures Spooled(w, s, [], x, k) <==>
      k <= Last(w.g, x) && k <= |History(w, x)| && Of(s.spool, x) == History(w, x)[k..] && Number(s, x) == |History(w, x)|
  {
    assert Of([], x) == [];
    if k <= |History(w, x)| { assert History(w, x)[k..] + [] == History(w, x)[k..]; }
  }

  lemma PruneSpooled(w: World, s: Store, a: Ack, x: Id, k: nat)
    requires HistoryOk(w) && Spooled(w, s, [], x, k) && a.number <= Last(w.g, a.session)
    ensures Covered(w, s.(spool := Prune(s.spool, a)), [], x)
  {
    var s', all := s.(spool := Prune(s.spool, a)), History(w, x);
    NothingPending(w, s, x, k);
    PruneOf(s.spool, a, x);
    var k' := if x != a.session || a.number <= k then k else if a.number <= |all| then a.number else |all|;
    if x == a.session { AboveTail(all, k, a.number); }
    NothingPending(w, s', x, k');
    assert Spooled(w, s', [], x, k');
  }

  // An acknowledged spool still covers everything not applied.
  lemma PruneCovers(w: World, s: Store, a: Ack)
    requires HistoryOk(w) && Covers(w, s, []) && a.number <= Last(w.g, a.session)
    ensures Covers(w, s.(spool := Prune(s.spool, a)), [])
  {
    forall x ensures Covered(w, s.(spool := Prune(s.spool, a)), [], x) {
      assert Covered(w, s, [], x);
      var k: nat :| Spooled(w, s, [], x, k);
      PruneSpooled(w, s, a, x, k);
    }
  }

  lemma ReadAckKeeps(w: World)
    requires Inv(w) && Enabled(w, ReadAck)
    ensures Inv(Apply(w, ReadAck))
  {
    var w', x := Apply(w, ReadAck), w.n.link.epoch;
    var a := w.wires[x].down[0];
    assert a in w.wires[x].down;
    PruneCovers(w, w.n.mem, a);
    CoversLater(w, w', w'.n.mem, []);
    CoversLater(w, w', w'.n.disk, []);
    NodeRests(w, w');
  }

  // ----- every run -----

  lemma StepKeeps(w: World, s: Step)
    requires Inv(w) && Enabled(w, s)
    ensures Inv(Apply(w, s))
  {
    match s {
      case NewSession(_) => NewSessionKeeps(w, s);
      case Take(_, _, _, _) => TakeKeeps(w, s);
      case CrashGateway(_) => CrashGatewayKeeps(w, s);
      case Connect => ConnectKeeps(w);
      case Start => StartKeeps(w);
      case Resend(_) => ResendKeeps(w, s);
      case Emit(_) => EmitKeeps(w, s);
      case SaveStore => SaveKeeps(w);
      case TransmitEvent(_) => TransmitKeeps(w, s);
      case ReadAck => ReadAckKeeps(w);
      case Hangup => NodeLeaves(w, Apply(w, s));
      case CrashNode => NodeLeaves(w, Apply(w, s));
      case _ => TableStepKeeps(w, s);
    }
  }

  lemma {:induction false} RunKeeps(w: World, steps: seq<Step>, w': World)
    requires Inv(w) && Runs(w, steps, w')
    ensures Inv(w')
    decreases |steps|
  {
    if steps != [] {
      StepKeeps(w, steps[0]);
      RunKeeps(Apply(w, steps[0]), steps[1..], w');
    }
  }

  lemma InitialInv()
    ensures Inv(Initial)
  {
    forall x ensures Covered(Initial, Initial.n.mem, [], x) { assert Spooled(Initial, Initial.n.mem, [], x, 0); }
  }

  lemma ReachableInv(w: World)
    requires Reachable(w)
    ensures Inv(w)
  {
    var steps :| Runs(Initial, steps, w);
    InitialInv();
    RunKeeps(Initial, steps, w);
  }

  // ----- what it buys -----

  // Exactly once, in order: the events applied to a session are the first ones its Node
  // durably emitted, under anchors that grow with every event written to the log. Deleting
  // receipts does not matter.
  lemma ExactlyOnceInOrder(w: World, x: Id)
    requires Reachable(w) && x in w.g.sessions
    ensures var s := w.g.sessions[x];
      && s.applied <= History(w, x) && |s.applied| == s.last == |s.anchors| == |s.wrote|
      && (forall i, j :: 0 <= i < j < s.last ==> s.applied[i].id != s.applied[j].id && s.anchors[i] <= s.anchors[j])
      && (forall i, j :: 0 <= i < j < s.last && s.wrote[j] ==> s.anchors[i] < s.anchors[j])
  {
    ReachableInv(w);
    var s := w.g.sessions[x];
    assert SessionOk(w, x);
    forall i, j | 0 <= i < j < s.last ensures s.applied[i].id != s.applied[j].id {
      if s.applied[i].id == s.applied[j].id { SamePlace(w, x, i, x, j); }
    }
  }

  // No acknowledgement under way exceeds what was applied, at any time.
  lemma AcksBounded(w: World, x: nat, a: Ack)
    requires Reachable(w) && x in w.wires && a in w.wires[x].down
    ensures a.number <= Last(w.g, a.session)
  {
    ReachableInv(w);
  }

  // Nothing is lost: what the Gateway has not applied is in the spool, on disk too.
  lemma NothingLost(w: World, x: Id, i: nat)
    requires Reachable(w) && Last(w.g, x) <= i < |History(w, x)|
    ensures History(w, x)[i] in w.n.disk.spool && History(w, x)[i] in w.n.mem.spool
  {
    ReachableInv(w);
    SpoolHolds(w, w.n.disk, [], x, i);
    SpoolHolds(w, w.n.mem, Pending(w.n), x, i);
  }

  lemma {:induction false} OfSubset(s: seq<Event>, session: Id)
    ensures forall e :: e in Of(s, session) ==> e in s && e.session == session
  {
    if s != [] { OfSubset(s[1..], session); }
  }

  lemma SpoolHolds(w: World, s: Store, pending: seq<Event>, x: Id, i: nat)
    requires Covers(w, s, pending) && Last(w.g, x) <= i < |History(w, x)|
    ensures History(w, x)[i] in s.spool
  {
    assert Covered(w, s, pending, x);
    var k: nat :| Spooled(w, s, pending, x, k);
    assert History(w, x)[k..][i - k] == History(w, x)[i];
    assert Of(s.spool, x)[i - k] == History(w, x)[i];
    OfSubset(s.spool, x);
    assert Of(s.spool, x)[i - k] in Of(s.spool, x);
  }

  // On a connection where no next event was refused, the Gateway never meets a gap and
  // never finds a source id reused.
  lemma NoGap(w: World, x: nat, valid: bool, appended: nat)
    requires Reachable(w) && w.g.registered == Some(x) && x in w.wires && w.wires[x].up != [] && w.wires[x].clean
    ensures var e := w.wires[x].up[0]; var o := Source(w.g, e, valid, appended).1;
      && e.number <= Last(w.g, e.session) + 1
      && (o.Conflict? ==> e.number <= Last(w.g, e.session) && e.id !in w.g.receipts)
  {
    ReachableInv(w);
    var e := w.wires[x].up[0];
    HeadKnown(w, x);
    if e.id in w.g.receipts { ReceiptIdentifies(w, e); }
    SourceOutcome(w.g, e, valid, appended);
  }

  // When a clean connection falls silent, the Gateway has applied everything.
  lemma QuietMeansComplete(w: World, x: nat, session: Id)
    requires Reachable(w) && w.g.registered == Some(x) && x in w.wires && w.wires[x].clean && w.wires[x].up == []
    requires w.n.link == Up(x) && w.n.rest == [] && !w.n.pc.Transmit?
    ensures Last(w.g, session) == |History(w, session)|
  {
    ReachableInv(w);
    assert Flowing(w, x, session);
    var j: nat, m: nat :| Flows(w, x, session, j, m);
    assert History(w, session)[j..m] == [] && History(w, session)[m..] == [];
    if session in w.g.sessions { assert SessionOk(w, session); }
  }
}
