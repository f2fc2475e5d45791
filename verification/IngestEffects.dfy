// What the ingestion steps leave, and that a reconnection brings the Gateway up to date.
module IngestEffects {
  import opened Basics
  import opened IngestWorld
  import opened IngestSafety

  // ----- one source event -----

  // The receipt of an event that was taken in before.
  function ReceiptOf(e: Event, sequence: nat): SourceReceipt {
    SourceReceipt(e.session, e.number, e.body, sequence)
  }

  predicate TakesIn(g: Gateway, e: Event, valid: bool) {
    && e.session in g.sessions && e.id !in g.receipts && e.number == g.sessions[e.session].last + 1
    && valid && (g.sessions[e.session].purged ==> e.closed)
  }

  // A new event is taken in exactly if it is the next of its session and its handler accepts
  // it; a purged session takes in its closure only, and writes nothing for it. A known event
  // is acknowledged again as it was. Everything else changes nothing.
  lemma {:induction false} SourceExactly(g: Gateway, e: Event, valid: bool, appended: nat)
    ensures Source(g, e, valid, appended).1.Applied? <==> TakesIn(g, e, valid)
    ensures TakesIn(g, e, valid) ==>
      var s := g.sessions[e.session];
      var top := if s.purged then s.sequence else s.sequence + 1 + appended;
      Source(g, e, valid, appended) == (
        g.(sessions := g.sessions[e.session := Session(s.last + 1, top, s.purged, s.applied + [e], s.anchors + [top], s.wrote + [!s.purged])],
           receipts := g.receipts[e.id := ReceiptOf(e, top)]),
        Applied(Ack(e.session, e.number, top)))
    ensures !TakesIn(g, e, valid) ==> Source(g, e, valid, appended).0 == g
    ensures e.session in g.sessions && e.id in g.receipts ==>
      Source(g, e, valid, appended).1 ==
        if g.receipts[e.id] == ReceiptOf(e, g.receipts[e.id].sequence) then Duplicate(Ack(e.session, e.number, g.receipts[e.id].sequence))
        else Conflict
    ensures e.session in g.sessions && e.id !in g.receipts && (g.sessions[e.session].purged ==> e.closed) ==>
      (Source(g, e, valid, appended).1.Conflict? <==> e.number != g.sessions[e.session].last + 1)
    ensures e.session !in g.sessions || (e.id !in g.receipts && g.sessions[e.session].purged && !e.closed) ==>
      Source(g, e, valid, appended).1.Refused?
  {
  }

  // ----- the spool -----

  lemma {:induction false} PruneJoin(a: seq<Event>, b: seq<Event>, k: Ack)
    ensures Prune(a + b, k) == Prune(a, k) + Prune(b, k)
    decreases |a|
  {
    if a == [] {
      assert a + b == b;
    } else {
      assert (a + b)[0] == a[0] && (a + b)[1..] == a[1..] + b;
      PruneJoin(a[1..], b, k);
    }
  }

  // An acknowledgement removes its session's events up to its number, wherever they stand, and
  // leaves the others in order.
  lemma {:induction false} PruneExactly(spool: seq<Event>, i: nat, k: Ack)
    requires i < |spool|
    ensures Prune(spool, k) == Prune(spool[..i], k)
      + (if spool[i].session == k.session && spool[i].number <= k.number then [] else [spool[i]]) + Prune(spool[i + 1..], k)
  {
    var one := [spool[i]];
    assert spool == spool[..i] + (one + spool[i + 1..]);
    PruneJoin(spool[..i], one + spool[i + 1..], k);
    PruneJoin(one, spool[i + 1..], k);
    assert one[1..] == [] && Prune([], k) == [];
  }

  lemma {:induction false} PruneHas(spool: seq<Event>, k: Ack, e: Event)
    ensures e in Prune(spool, k) <==> e in spool && !(e.session == k.session && e.number <= k.number)
    decreases |spool|
  {
    if spool != [] { PruneHas(spool[1..], k, e); }
  }

  // ----- catching up after a reconnection -----

  ghost predicate Leads(w: World, w': World) {
    exists steps :: Runs(w, steps, w')
  }

  lemma {:induction false} RunsJoin(w: World, a: seq<Step>, w1: World, b: seq<Step>, w2: World)
    requires Runs(w, a, w1) && Runs(w1, b, w2)
    ensures Runs(w, a + b, w2)
    decreases |a|
  {
    if a == [] {
      assert a + b == b;
    } else {
      RunsJoin(Apply(w, a[0]), a[1..], w1, b, w2);
      assert (a + b)[0] == a[0] && (a + b)[1..] == a[1..] + b;
    }
  }

  lemma {:induction false} LeadsJoin(w: World, w1: World, w2: World)
    requires Leads(w, w1) && Leads(w1, w2)
    ensures Leads(w, w2)
  {
    var a :| Runs(w, a, w1);
    var b :| Runs(w1, b, w2);
    RunsJoin(w, a, w1, b, w2);
  }

  lemma {:induction false} LeadsOne(w: World, s: Step)
    requires Enabled(w, s)
    ensures Leads(w, Apply(w, s))
  {
    assert [s][1..] == [] && Runs(Apply(w, s), [], Apply(w, s));
    assert Runs(w, [s], Apply(w, s));
  }

  lemma {:induction false} LeadsNone(w: World)
    ensures Leads(w, w)
  {
    assert Runs(w, [], w);
  }

  lemma {:induction false} StillReachable(w: World, w': World)
    requires Reachable(w) && Leads(w, w')
    ensures Reachable(w')
  {
    var a :| Runs(Initial, a, w);
    var b :| Runs(w, b, w');
    RunsJoin(Initial, a, w, b, w');
  }

  function WithUp(w: World, x: nat, up: seq<Event>): World
    requires x in w.wires
  {
    w.(wires := w.wires[x := w.wires[x].(up := up)])
  }

  function Resent(w: World, x: nat): World
    requires x in w.wires
  {
    var w1 := WithUp(w, x, w.wires[x].up + w.n.rest);
    w1.(n := w1.n.(rest := []))
  }

  // The whole spool is repeated.
  lemma {:induction false} ResendAll(w: World, x: nat)
    requires w.n.link == Up(x) && w.n.pc.Idle? && x in w.wires
    ensures Leads(w, Resent(w, x))
    decreases |w.n.rest|
  {
    if w.n.rest == [] {
      assert w.wires[x].up + w.n.rest == w.wires[x].up;
      assert Resent(w, x) == w;
      LeadsNone(w);
    } else {
      var w1 := Apply(w, Resend(true));
      LeadsOne(w, Resend(true));
      ResendAll(w1, x);
      ResentOn(w, x, w1);
      LeadsJoin(w, w1, Resent(w, x));
    }
  }

  lemma {:induction false} ResentOn(w: World, x: nat, w1: World)
    requires w.n.link == Up(x) && w.n.pc.Idle? && x in w.wires && w.n.rest != []
    requires w1 == Apply(w, Resend(true))
    ensures x in w1.wires && Resent(w1, x) == Resent(w, x)
  {
    var up, rest := w.wires[x].up, w.n.rest;
    assert (up + [rest[0]]) + rest[1..] == up + rest;
  }

  // Every session with an event on the way exists and still has its history.
  predicate Welcome(g: Gateway, up: seq<Event>) {
    forall i :: 0 <= i < |up| ==> up[i].session in g.sessions && !g.sessions[up[i].session].purged
  }

  // Nothing but the frames, the sessions' progress and the acknowledgements changes.
  predicate Reading(w: World, w': World, x: nat) {
    && w'.n == w.n && w'.history == w.history && w'.drawn == w.drawn
    && w'.g.registered == w.g.registered && w'.g.sessions.Keys == w.g.sessions.Keys
    && (forall s :: s in w.g.sessions ==> w'.g.sessions[s].purged == w.g.sessions[s].purged)
    && x in w.wires && x in w'.wires && w'.wires[x].clean == w.wires[x].clean
  }

  lemma {:induction false} TakeOne(w: World, x: nat)
    requires w.g.registered == Some(x) && x in w.wires && w.wires[x].up != [] && Welcome(w.g, w.wires[x].up)
    ensures var w' := Apply(w, Take(x, true, 0, true));
      Reading(w, w', x) && w'.wires[x].up == w.wires[x].up[1..] && Welcome(w'.g, w'.wires[x].up)
  {
    SourceExactly(w.g, w.wires[x].up[0], true, 0);
  }

  lemma {:induction false} TakeAll(w: World, x: nat) returns (w': World)
    requires w.g.registered == Some(x) && x in w.wires && Welcome(w.g, w.wires[x].up)
    ensures Leads(w, w') && Reading(w, w', x) && w'.wires[x].up == []
    decreases |w.wires[x].up|
  {
    if w.wires[x].up == [] {
      w' := w;
      LeadsNone(w);
    } else {
      var s := Take(x, true, 0, true);
      TakeOne(w, x);
      LeadsOne(w, s);
      w' := TakeAll(Apply(w, s), x);
      LeadsJoin(w, Apply(w, s), w');
    }
  }

  function Redialled(w: World): World {
    var x := w.g.epoch + 1;
    World(w.g.(epoch := x, registered := Some(x)), w.n.(link := Up(x), rest := w.n.mem.spool),
          w.wires[x := Wire([], [], true)], w.history, w.drawn)
  }

  lemma {:induction false} Redial(w: World)
    requires Enabled(w, Connect)
    ensures Leads(w, Redialled(w))
  {
    var w1 := Apply(w, Connect);
    LeadsOne(w, Connect);
    LeadsOne(w1, Start);
    assert Apply(w1, Start) == Redialled(w);
    LeadsJoin(w, w1, Redialled(w));
  }

  // Nothing that was emitted is ever out of reach: from any reachable state in which the Node
  // can connect, repeating its spool brings every session up to date, whatever was lost
  // before, provided the sessions concerned exist and keep their histories.
  lemma {:induction false} CatchesUp(w: World) returns (w': World)
    requires Reachable(w) && Enabled(w, Connect) && Welcome(w.g, w.n.mem.spool)
    ensures Leads(w, w') && w'.history == w.history
    ensures forall session :: Last(w'.g, session) == |History(w', session)|
  {
    var x := w.g.epoch + 1;
    var w1 := Redialled(w);
    var w2 := Resent(w1, x);
    Redial(w);
    ResendAll(w1, x);
    LeadsJoin(w, w1, w2);
    assert w2.wires[x].up == w.n.mem.spool;
    w' := TakeAll(w2, x);
    LeadsJoin(w, w2, w');
    StillReachable(w, w');
    forall session
      ensures Last(w'.g, session) == |History(w', session)|
    {
      QuietMeansComplete(w', x, session);
    }
  }
}
