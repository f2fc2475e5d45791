// The daily clearing of command payloads: the machine that clears accepts and does exactly
// what the machine that keeps every payload does, provided queue receipts are honest.
module PayloadGc {
  import opened Basics
  import opened SessionTables
  import opened SessionMirror
  import opened SessionSafety
  import opened SessionTheorems

  // No unconsumed item of this operation is left in these rows.
  predicate NoneActive(rows: seq<Row>, o: Id) {
    forall i :: 0 <= i < |rows| && rows[i].op == o ==> !ActiveRow(rows[i])
  }

  // No reconciliation will ask for this operation's payload again.
  predicate Dead(op: Op, rows: seq<Row>, o: Id) {
    NoneActive(rows, o) && (op.kind.Queue? && !op.state.Rejected? ==> OpQueued(rows, o))
  }

  // An unconsumed item whose operation failed: no report can list it, and none may omit it.
  predicate Stuck(t: Tables) {
    exists i :: 0 <= i < |t.queue| && StuckRow(t.ops, t.queue[i])
  }

  predicate StuckRow(ops: map<Id, Op>, r: Row) {
    ActiveRow(r) && r.op in ops && ops[r.op].state.Rejected?
  }

  // No report of the queue is ever accepted again.
  predicate Blocked(t: Tables) {
    t.purged || Stuck(t)
  }

  // No later transaction can read this payload: the operation is settled, its item is not
  // waiting, and it failed, or its turn (if it has one) started, or reports are over.
  predicate Useless(t: Tables, o: Id)
    requires o in t.ops
  {
    var p := t.ops[o];
    p.payload.None? ||
    (&& !Open(p.state) && NoneActive(t.queue, o)
     && (p.state.Rejected? || Blocked(t) || p.payload.value.nextTurn.None? || p.payload.value.nextTurn.value in t.turns))
  }

  // b is a with some useless payloads gone.
  predicate ClearedFrom(a: Tables, b: Tables) {
    && b == a.(ops := b.ops) && b.ops.Keys == a.ops.Keys
    && (forall o :: o in a.ops ==> b.ops[o] == a.ops[o] || (b.ops[o] == a.ops[o].(payload := None) && Useless(a, o)))
  }

  // A confirmed enqueue without a row whose item may still be reported.
  predicate LiveOrphan(t: Tables, o: Id) {
    o in t.ops && t.ops[o].kind.Queue? && t.ops[o].state.Confirmed? && !OpQueued(t.queue, o) && !Blocked(t)
  }

  // A confirmed enqueue has its row.
  predicate NoOrphan(t: Tables) {
    !t.purged ==> forall o :: o in t.ops && t.ops[o].kind.Queue? && t.ops[o].state.Confirmed? ==> OpQueued(t.queue, o)
  }

  // The receipt of an enqueue names an item of its own operation, not one already listed
  // for another.
  predicate Honest(t: Tables, s: Step) {
    s.Confirm? && s.op in t.ops && t.ops[s.op].kind.Queue? && s.item.Some? && Listed(t, s.item.value) ==> OpQueued(t.queue, s.op)
  }

  // ----- reconciliation does not notice -----

  predicate DeadOnly(ops: map<Id, Op>, ops': map<Id, Op>, rows: seq<Row>) {
    && ops'.Keys == ops.Keys
    && (forall o :: o in ops ==> ops'[o] == ops[o] || (ops'[o] == ops[o].(payload := None) && (ops[o].payload.None? || Dead(ops[o], rows, o))))
  }

  lemma SameMirrors(ops: map<Id, Op>, ops': map<Id, Op>, rows: seq<Row>, k: nat, q: Item)
    requires k <= |rows| && DeadOnly(ops, ops', rows)
    requires Fresh(rows, q) || exists i :: 0 <= i < |rows| && ActiveRow(rows[i]) && rows[i].op == q.op
    ensures Mirrors(ops, q) <==> Mirrors(ops', q)
    ensures Mirrors(ops, q) ==> NewRow(ops, q) == NewRow(ops', q)
  {
  }

  lemma SameAccepts(ops: map<Id, Op>, ops': map<Id, Op>, rows: seq<Row>, k: nat, items: seq<Item>)
    requires Split(rows, k) && DeadOnly(ops, ops', rows) && (Accepts(ops, rows, k, items) || Accepts(ops', rows, k, items))
    ensures Accepts(ops, rows, k, items) && Accepts(ops', rows, k, items)
    ensures forall i :: |rows| - k <= i < |items| ==> NewRow(ops, items[i]) == NewRow(ops', items[i])
  {
    forall i | 0 <= i < |items|
      ensures Mirrors(ops, items[i]) && Mirrors(ops', items[i])
      ensures |rows| - k <= i ==> NewRow(ops, items[i]) == NewRow(ops', items[i])
    {
      if i < |rows| - k {
        assert Same(rows[k..][i], items[i]);
        assert ActiveRow(rows[k + i]) && rows[k + i].op == items[i].op;
      }
      SameMirrors(ops, ops', rows, k, items[i]);
    }
  }

  lemma SameMirror(ops: map<Id, Op>, ops': map<Id, Op>, rows: seq<Row>, k: nat, items: seq<Item>)
    requires Tidy(rows, k) && DeadOnly(ops, ops', rows)
    ensures QueueMirror(ops', rows, items) == QueueMirror(ops, rows, items)
  {
    MirrorExact(ops, rows, k, items);
    MirrorExact(ops', rows, k, items);
    if Accepts(ops, rows, k, items) || Accepts(ops', rows, k, items) {
      SameAccepts(ops, ops', rows, k, items);
      assert Marked(ops, rows[k..], items, |items|) == Marked(ops', rows[k..], items, |items|);
    }
  }

  // ----- what clearing removes is useless -----

  lemma UselessIsDead(t: Tables, o: Id, rows: seq<Row>)
    requires Inv(t) && !Blocked(t) && o in t.ops && t.ops[o].payload.Some? && Useless(t, o)
    requires |rows| == |t.queue| && forall i :: 0 <= i < |rows| ==> rows[i].op == t.queue[i].op && (ActiveRow(rows[i]) ==> ActiveRow(t.queue[i]))
    ensures Dead(t.ops[o], rows, o)
  {
    assert PayloadOk(t.drawn, o, t.ops[o]);
    if t.ops[o].kind.Queue? && !t.ops[o].state.Rejected? {
      assert OpQueued(t.queue, o);
      var i :| 0 <= i < |t.queue| && t.queue[i].op == o;
      assert rows[i] in rows;
    }
  }

  lemma DeadCleared(a: Tables, b: Tables, rows: seq<Row>)
    requires Inv(a) && !Blocked(a) && ClearedFrom(a, b)
    requires |rows| == |a.queue| && forall i :: 0 <= i < |rows| ==> rows[i].op == a.queue[i].op && (ActiveRow(rows[i]) ==> ActiveRow(a.queue[i]))
    ensures DeadOnly(a.ops, b.ops, rows)
  {
    forall o | o in a.ops && b.ops[o] != a.ops[o] && a.ops[o].payload.Some?
      ensures Dead(a.ops[o], rows, o)
    {
      UselessIsDead(a, o, rows);
    }
  }

  // A payload that may be cleared and is not that of a live orphan is of no use.
  lemma ClearableIsUseless(a: Tables, b: Tables, o: Id)
    requires Inv(a) && ClearedFrom(a, b) && o in b.ops && Clearable(b, o) && !LiveOrphan(b, o)
    ensures Useless(a, o)
  {
    forall i | 0 <= i < |a.queue| && a.queue[i].op == o
      ensures !ActiveRow(a.queue[i])
    {
      assert a.queue[i] in b.queue;
    }
    assert PayloadOk(a.drawn, o, a.ops[o]);
    StuckSame(a, b);
    if a.ops[o].kind.Queue? && a.ops[o].state.Confirmed? && !Blocked(a) {
      var i :| 0 <= i < |a.queue| && a.queue[i].op == o;
      assert RowOk(a.ops, a.drawn, a.turns.Keys, a.queue[i]);
    }
  }

  lemma StuckSame(a: Tables, b: Tables)
    requires ClearedFrom(a, b)
    ensures Stuck(a) == Stuck(b)
  {
    if Stuck(a) {
      var i :| 0 <= i < |a.queue| && StuckRow(a.ops, a.queue[i]);
      assert StuckRow(b.ops, b.queue[i]);
    }
    if Stuck(b) {
      var i :| 0 <= i < |b.queue| && StuckRow(b.ops, b.queue[i]);
      assert StuckRow(a.ops, a.queue[i]);
    }
  }

  // ----- a stuck queue stays stuck -----

  lemma StuckRefuses(ops: map<Id, Op>, rows: seq<Row>, k: nat, items: seq<Item>, i: nat)
    requires Tidy(rows, k) && i < |rows| && StuckRow(ops, rows[i])
    ensures QueueMirror(ops, rows, items).None?
  {
    MirrorExact(ops, rows, k, items);
    assert k <= i;
    assert i - k < |items| && Same(rows[k..][i - k], items[i - k]) ==> !Mirrors(ops, items[i - k]);
  }

  lemma StuckEnqueue(t: Tables, op: Id, item: Id, text: Id, now: int)
    requires QueueOk(t) && Stuck(t) && !Listed(t, item)
    ensures Enqueued(t, op, item, text, now).None?
  {
    var i :| 0 <= i < |t.queue| && StuckRow(t.ops, t.queue[i]);
    StuckRefuses(t.ops, t.queue, Spent(t.queue), Items(ActiveRows(t.queue)) + [Item(item, op, text, now, false)], i);
  }

  // A turn that starts consumes the row of a confirmed operation, not a stuck one.
  lemma StuckUpdate(t: Tables, u: Snapshot, now: int)
    requires Inv(t) && Stuck(t) && !t.purged
    ensures SessionUpdate(t, u, now).None?
  {
    if TurnAllowed(t, u) {
      var i :| 0 <= i < |t.queue| && StuckRow(t.ops, t.queue[i]);
      var rows := BeforeMirror(t, u);
      BeforeMirrorOk(t, u);
      if u.turn != t.turn {
        TheReservation(t, u.turn);
        ConsumesHead(t, u.turn);
      }
      assert rows[i] == t.queue[i];
      StuckRefuses(t.ops, rows, Spent(rows), u.queue, i);
    }
  }

  // A settled operation keeps its state.
  lemma SettledStays(t: Tables, s: Step, o: Id)
    requires TurnsOk(t) && Apply(t, s).Some? && o in t.ops && !Open(t.ops[o].state)
    ensures o in Apply(t, s).value.ops && Apply(t, s).value.ops[o].state == t.ops[o].state
  {
    match s
    case Confirm(op, item, now) => ConfirmParts(t, op, item, now);
    case Fail(op, now) => FailParts(t, op, now);
    case Update(u, now) => UpdateParts(t, u, now);
    case _ =>
  }

  lemma StuckStays(t: Tables, s: Step)
    requires Inv(t) && Stuck(t) && Apply(t, s).Some?
    ensures Blocked(Apply(t, s).value)
  {
    var t' := Apply(t, s).value;
    if !t'.purged {
      StepPurged(t, s);
      var i :| 0 <= i < |t.queue| && StuckRow(t.ops, t.queue[i]);
      SettledStays(t, s, t.queue[i].op);
      if s.Update? { StuckUpdate(t, s.u, s.now); }
      StuckQueue(t, s);
      assert StuckRow(t'.ops, t'.queue[i]);
    }
  }

  lemma StuckQueue(t: Tables, s: Step)
    requires Inv(t) && Stuck(t) && Apply(t, s).Some? && !Apply(t, s).value.purged && !s.Update?
    ensures Apply(t, s).value.queue == t.queue
  {
    if s.Confirm? {
      ConfirmRest(t, s.op, s.item, s.now);
      if t.ops[s.op].kind.Queue? && !Listed(t, s.item.value) {
        StuckEnqueue(t, s.op, s.item.value, t.ops[s.op].payload.value.text, s.now);
      }
    } else {
      QueueUntouched(t, s);
    }
  }

  lemma BlockedStays(t: Tables, s: Step)
    requires Inv(t) && Blocked(t) && Apply(t, s).Some?
    ensures Blocked(Apply(t, s).value)
  {
    if t.purged { StepPurged(t, s); } else { StuckStays(t, s); }
  }

  // ----- one transaction on both machines -----

  lemma StillUseless(a: Tables, a': Tables, o: Id)
    requires o in a.ops && o in a'.ops && Useless(a, o) && a'.ops[o] == a.ops[o]
    requires a.turns.Keys <= a'.turns.Keys && (Blocked(a) ==> Blocked(a'))
    requires a.ops[o].payload.Some? ==> NoneActive(a'.queue, o)
    ensures Useless(a', o)
  {
  }

  lemma ClearedStep(a: Tables, b: Tables, a': Tables, b': Tables)
    requires ClearedFrom(a, b) && b' == a'.(ops := b'.ops) && a.ops.Keys <= a'.ops.Keys && b'.ops.Keys == a'.ops.Keys
    requires a.turns.Keys <= a'.turns.Keys && (Blocked(a) ==> Blocked(a'))
    requires forall o :: o in a'.ops ==> a'.ops[o] == b'.ops[o] || (o in a.ops && a'.ops[o] == a.ops[o] && b'.ops[o] == b.ops[o])
    requires forall o :: o in a.ops && b.ops[o] != a.ops[o] && a.ops[o].payload.Some? ==> NoneActive(a'.queue, o)
    ensures ClearedFrom(a', b')
  {
    forall o | o in a'.ops && b'.ops[o] != a'.ops[o]
      ensures b'.ops[o] == a'.ops[o].(payload := None) && Useless(a', o)
    {
      StillUseless(a, a', o);
    }
  }

  // An open operation still has what it was admitted with.
  lemma OpenKept(a: Tables, b: Tables, o: Id)
    requires ClearedFrom(a, b) && o in a.ops && Open(a.ops[o].state)
    ensures b.ops[o] == a.ops[o]
  {
  }

  lemma SameBusy(a: Tables, b: Tables)
    requires ClearedFrom(a, b)
    ensures Busy(a.ops) == Busy(b.ops) && AnyOpen(a.ops) == AnyOpen(b.ops)
  {
    if Busy(a.ops) {
      var o :| o in a.ops && Open(a.ops[o].state) && !a.ops[o].kind.Queue?;
      assert o in b.ops && Open(b.ops[o].state);
    }
    if AnyOpen(a.ops) {
      var o :| o in a.ops && Open(a.ops[o].state);
      assert o in b.ops && Open(b.ops[o].state);
    }
  }

  lemma AdmitBlocked(t: Tables, s: Step)
    requires Inv(t) && s.Admit? && Admissible(t, s)
    ensures Blocked(t) ==> Blocked(DoAdmit(t, s))
  {
    if Blocked(t) { BlockedStays(t, s); }
  }

  lemma AdmitSame(a: Tables, b: Tables, s: Step)
    requires Inv(a) && s.Admit? && ClearedFrom(a, b)
    ensures Admissible(a, s) == Admissible(b, s)
    ensures Admissible(a, s) ==> ClearedFrom(DoAdmit(a, s), DoAdmit(b, s))
  {
    SameBusy(a, b);
    if Admissible(a, s) {
      AdmitBlocked(a, s);
      AdmittedSame(a, b, s);
    }
  }

  lemma AdmittedSame(a: Tables, b: Tables, s: Step)
    requires s.Admit? && s.op !in a.ops && ClearedFrom(a, b) && (Blocked(a) ==> Blocked(DoAdmit(a, s)))
    ensures ClearedFrom(DoAdmit(a, s), DoAdmit(b, s))
  {
    ClearedStep(a, b, DoAdmit(a, s), DoAdmit(b, s));
  }

  // New rows belong to operations that still have their payload.
  lemma MirrorSpares(ops: map<Id, Op>, ops': map<Id, Op>, rows: seq<Row>, k: nat, items: seq<Item>, o: Id)
    requires Tidy(rows, k) && DeadOnly(ops, ops', rows) && QueueMirror(ops, rows, items).Some?
    requires o in ops && ops'[o] != ops[o] && NoneActive(rows, o)
    ensures NoneActive(QueueMirror(ops, rows, items).value, o)
  {
    var r := QueueMirror(ops, rows, items).value;
    SameMirror(ops, ops', rows, k, items);
    OrderIsReported(ops', rows, k, items);
    forall i | |rows| <= i < |r|
      ensures r[i].op != o
    {
      assert HoldsAt(ops', rows, r, items[i - k], k + (i - k)) && Mirrors(ops', items[i - k]);
    }
    forall i | 0 <= i < |rows|
      ensures r[i].op == rows[i].op && (ActiveRow(r[i]) ==> ActiveRow(rows[i]))
    {
      assert rows[i].(state := Queued) == r[i].(state := Queued);
    }
  }

  lemma ConfirmSame(a: Tables, b: Tables, op: Id, item: Option<Id>, now: int)
    requires Inv(a) && ClearedFrom(a, b) && op in a.ops && Open(a.ops[op].state)
    ensures DoConfirm(a, op, item, now).Some? == DoConfirm(b, op, item, now).Some?
    ensures DoConfirm(a, op, item, now).Some? ==> ClearedFrom(DoConfirm(a, op, item, now).value, DoConfirm(b, op, item, now).value)
  {
    OpenKept(a, b, op);
    if a.ops[op].kind.Queue? && item.Some? && a.ops[op].payload.Some? {
      EnqueuedSame(a, b, op, item.value, a.ops[op].payload.value.text, now);
    }
    if DoConfirm(a, op, item, now).Some? { ConfirmedSame(a, b, op, item, now); }
  }

  lemma ConfirmedSame(a: Tables, b: Tables, op: Id, item: Option<Id>, now: int)
    requires Inv(a) && ClearedFrom(a, b) && op in a.ops && Open(a.ops[op].state) && b.ops[op] == a.ops[op]
    requires DoConfirm(a, op, item, now).Some? && DoConfirm(b, op, item, now).Some?
    requires a.ops[op].kind.Queue? && item.Some? && a.ops[op].payload.Some? ==>
      EnqueueSame(a, b, op, item.value, a.ops[op].payload.value.text, now)
    ensures ClearedFrom(DoConfirm(a, op, item, now).value, DoConfirm(b, op, item, now).value)
  {
    var a', b' := DoConfirm(a, op, item, now).value, DoConfirm(b, op, item, now).value;
    ConfirmParts(a, op, item, now);
    ConfirmParts(b, op, item, now);
    ConfirmTurns(a, op, item, now);
    ConfirmRest(a, op, item, now);
    ConfirmAlike(a, b, op, item, now);
    if Blocked(a) { BlockedStays(a, Confirm(op, item, now)); }
    ClearedStep(a, b, a', b');
  }

  // The rows a confirmed enqueue leaves are the same, and none is of an operation that lost
  // its payload.
  ghost predicate EnqueueSame(a: Tables, b: Tables, op: Id, item: Id, text: Id, now: int)
    requires a.ops.Keys == b.ops.Keys
  {
    && Enqueued(b, op, item, text, now) == Enqueued(a, op, item, text, now)
    && (Enqueued(a, op, item, text, now).Some? ==>
          forall o :: o in a.ops && b.ops[o] != a.ops[o] && a.ops[o].payload.Some? ==> NoneActive(Enqueued(a, op, item, text, now).value, o))
  }

  lemma EnqueuedSame(a: Tables, b: Tables, op: Id, item: Id, text: Id, now: int)
    requires Inv(a) && !a.purged && ClearedFrom(a, b)
    ensures EnqueueSame(a, b, op, item, text, now)
  {
    if !Listed(a, item) {
      if Stuck(a) {
        StuckSame(a, b);
        StuckEnqueue(a, op, item, text, now);
        StuckEnqueueAlike(a, b, op, item, text, now);
      } else {
        DeadCleared(a, b, a.queue);
        MirrorEnqueuedSame(a, b, op, item, text, now);
      }
    }
  }

  lemma StuckEnqueueAlike(a: Tables, b: Tables, op: Id, item: Id, text: Id, now: int)
    requires Inv(a) && Stuck(b) && ClearedFrom(a, b) && !Listed(a, item)
    ensures Enqueued(b, op, item, text, now).None?
  {
    var i :| 0 <= i < |b.queue| && StuckRow(b.ops, b.queue[i]);
    StuckRefuses(b.ops, b.queue, Spent(b.queue), Items(ActiveRows(b.queue)) + [Item(item, op, text, now, false)], i);
  }

  lemma MirrorEnqueuedSame(a: Tables, b: Tables, op: Id, item: Id, text: Id, now: int)
    requires Inv(a) && ClearedFrom(a, b) && DeadOnly(a.ops, b.ops, a.queue) && !Listed(a, item)
    ensures EnqueueSame(a, b, op, item, text, now)
  {
    var items := Items(ActiveRows(a.queue)) + [Item(item, op, text, now, false)];
    SameMirror(a.ops, b.ops, a.queue, Spent(a.queue), items);
    if Enqueued(a, op, item, text, now).Some? {
      forall o | o in a.ops && b.ops[o] != a.ops[o] && a.ops[o].payload.Some?
        ensures NoneActive(Enqueued(a, op, item, text, now).value, o)
      {
        MirrorSpares(a.ops, b.ops, a.queue, Spent(a.queue), items, o);
      }
    }
  }

  lemma ConfirmAlike(a: Tables, b: Tables, op: Id, item: Option<Id>, now: int)
    requires ClearedFrom(a, b) && op in a.ops && b.ops[op] == a.ops[op]
    requires DoConfirm(a, op, item, now).Some? && DoConfirm(b, op, item, now).Some?
    requires a.ops[op].kind.Queue? && item.Some? && a.ops[op].payload.Some? ==>
      Enqueued(b, op, item.value, a.ops[op].payload.value.text, now) == Enqueued(a, op, item.value, a.ops[op].payload.value.text, now)
    ensures var a', b' := DoConfirm(a, op, item, now).value, DoConfirm(b, op, item, now).value; b' == a'.(ops := b'.ops)
  {
    if a.ops[op].kind.Queue? { QueueAlike(a, b, op, item, now); } else { ControlAlike(a, b, op, item, now); }
  }

  lemma QueueAlike(a: Tables, b: Tables, op: Id, item: Option<Id>, now: int)
    requires ClearedFrom(a, b) && op in a.ops && b.ops[op] == a.ops[op] && a.ops[op].kind.Queue?
    requires DoConfirm(a, op, item, now).Some? && DoConfirm(b, op, item, now).Some?
    requires item.Some? && a.ops[op].payload.Some? ==>
      Enqueued(b, op, item.value, a.ops[op].payload.value.text, now) == Enqueued(a, op, item.value, a.ops[op].payload.value.text, now)
    ensures var a', b' := DoConfirm(a, op, item, now).value, DoConfirm(b, op, item, now).value; b' == a'.(ops := b'.ops)
  {
    var a', b' := DoConfirm(a, op, item, now).value, DoConfirm(b, op, item, now).value;
    ConfirmRest(a, op, item, now);
    ConfirmRest(b, op, item, now);
    assert b'.queue == a'.queue && b'.last == a'.last;
  }

  lemma ControlAlike(a: Tables, b: Tables, op: Id, item: Option<Id>, now: int)
    requires ClearedFrom(a, b) && op in a.ops && b.ops[op] == a.ops[op] && !a.ops[op].kind.Queue?
    requires DoConfirm(a, op, item, now).Some? && DoConfirm(b, op, item, now).Some?
    ensures var a', b' := DoConfirm(a, op, item, now).value, DoConfirm(b, op, item, now).value; b' == a'.(ops := b'.ops)
  {
    var b1 := a.(ops := b.ops);
    assert b == b1;
    match a.ops[op].kind
    case Respond =>
    case Cancel =>
    case _ =>
  }

  lemma FailBlocked(t: Tables, op: Id, now: int)
    requires Inv(t) && op in t.ops && Open(t.ops[op].state)
    ensures Blocked(t) ==> Blocked(DoFail(t, op, now))
  {
    if Blocked(t) { BlockedStays(t, Fail(op, now)); }
  }

  lemma {:induction false} FailAlike(a: Tables, b: Tables, op: Id, now: int)
    requires b == a.(ops := b.ops) && op in a.ops && op in b.ops && b.ops[op] == a.ops[op]
    ensures DoFail(b, op, now) == DoFail(a, op, now).(ops := DoFail(b, op, now).ops)
  {
    assert b.requests == a.requests && b.turns == a.turns && b.state == a.state && b.turn == a.turn && b.last == a.last;
  }

  lemma FailSame(a: Tables, b: Tables, op: Id, now: int)
    requires Inv(a) && ClearedFrom(a, b) && op in a.ops && Open(a.ops[op].state)
    ensures ClearedFrom(DoFail(a, op, now), DoFail(b, op, now))
  {
    OpenKept(a, b, op);
    FailParts(a, op, now);
    FailParts(b, op, now);
    FailBlocked(a, op, now);
    FailAlike(a, b, op, now);
    ClearedStep(a, b, DoFail(a, op, now), DoFail(b, op, now));
  }

  lemma ReservationSame(a: Tables, b: Tables, turn: Id)
    requires Inv(a) && ClearedFrom(a, b) && !Blocked(a) && turn !in a.turns
    ensures Reservation(b.ops, turn) == Reservation(a.ops, turn)
  {
    forall o | o in a.ops
      ensures Reserves(a.ops[o], turn) <==> Reserves(b.ops[o], turn)
      ensures Reserves(a.ops[o], turn) ==> turn in a.drawn && a.drawn[turn] == o
    {
      if Reserves(a.ops[o], turn) { ReservedBy(a, turn, o); }
    }
  }

  lemma ResumeSame(a: Tables, b: Tables, turn: Id)
    requires ClearedFrom(a, b)
    ensures ResumeAuthorised(a.ops, turn) == ResumeAuthorised(b.ops, turn)
  {
    if ResumeAuthorised(a.ops, turn) {
      var o :| o in a.ops && a.ops[o].kind.Resume? && Open(a.ops[o].state) && a.ops[o].payload.Some? && a.ops[o].payload.value.expectedTurn == turn;
      assert o in b.ops && b.ops[o] == a.ops[o];
    }
    if ResumeAuthorised(b.ops, turn) {
      var o :| o in b.ops && b.ops[o].kind.Resume? && Open(b.ops[o].state) && b.ops[o].payload.Some? && b.ops[o].payload.value.expectedTurn == turn;
      assert o in a.ops && b.ops[o] == a.ops[o];
    }
  }

  lemma TurnAllowedSame(a: Tables, b: Tables, u: Snapshot)
    requires Inv(a) && ClearedFrom(a, b) && !Blocked(a)
    ensures TurnAllowed(a, u) == TurnAllowed(b, u)
  {
    ResumeSame(a, b, u.turn);
    if u.turn != a.turn && u.turn !in a.turns {
      ReservationSame(a, b, u.turn);
      if Reservation(a.ops, u.turn).Some? {
        var o := Reservation(a.ops, u.turn).value;
        assert b.ops[o].kind == a.ops[o].kind && b.ops[o].state == a.ops[o].state;
      }
    }
  }

  lemma BeforeMirrorShrinks(t: Tables, u: Snapshot)
    ensures var rows := BeforeMirror(t, u);
      |rows| == |t.queue| && forall i :: 0 <= i < |rows| ==> rows[i].op == t.queue[i].op && (ActiveRow(rows[i]) ==> ActiveRow(t.queue[i]))
  {
  }

  lemma UpdateSame(a: Tables, b: Tables, u: Snapshot, now: int)
    requires Inv(a) && ClearedFrom(a, b) && !Blocked(a)
    ensures SessionUpdate(a, u, now).Some? == SessionUpdate(b, u, now).Some?
    ensures SessionUpdate(a, u, now).Some? ==> ClearedFrom(SessionUpdate(a, u, now).value, SessionUpdate(b, u, now).value)
  {
    TurnAllowedSame(a, b, u);
    if TurnAllowed(a, u) {
      var rows := BeforeMirror(a, u);
      BeforeMirrorOk(a, u);
      BeforeMirrorShrinks(a, u);
      DeadCleared(a, b, rows);
      SameMirror(a.ops, b.ops, rows, Spent(rows), u.queue);
      UpdateAlike(a, b, u, now);
      if SessionUpdate(a, u, now).Some? {
        UpdateMirrors(a, u, now);
        UpdateParts(a, u, now);
        forall o | o in a.ops && b.ops[o] != a.ops[o] && a.ops[o].payload.Some?
          ensures NoneActive(SessionUpdate(a, u, now).value.queue, o)
        {
          MirrorSpares(a.ops, b.ops, rows, Spent(rows), u.queue, o);
        }
        ClearedStep(a, b, SessionUpdate(a, u, now).value, SessionUpdate(b, u, now).value);
      }
    }
  }

  lemma UpdateAlike(a: Tables, b: Tables, u: Snapshot, now: int)
    requires TurnsOk(a) && ClearedFrom(a, b) && TurnAllowed(a, u) && TurnAllowed(b, u)
    requires QueueMirror(b.ops, BeforeMirror(a, u), u.queue) == QueueMirror(a.ops, BeforeMirror(a, u), u.queue)
    ensures SessionUpdate(a, u, now).Some? == SessionUpdate(b, u, now).Some?
    ensures SessionUpdate(a, u, now).Some? ==> SessionUpdate(b, u, now).value == SessionUpdate(a, u, now).value.(ops := b.ops)
  {
  }

  // Both machines take the transaction, or both refuse it, and they stay in step.
  ghost predicate InStep(a: Tables, b: Tables, s: Step)
    requires a.turn in a.turns && b.turn in b.turns
  {
    Apply(a, s).Some? == Apply(b, s).Some? && ClearedFrom(After(a, s), After(b, s))
  }

  lemma AdmitInStep(a: Tables, b: Tables, s: Step)
    requires Inv(a) && TurnsOk(b) && ClearedFrom(a, b) && s.Admit?
    ensures InStep(a, b, s)
  {
    AdmitSame(a, b, s);
  }

  lemma ReportInStep(a: Tables, b: Tables, op: Id, state: OpState)
    requires Inv(a) && TurnsOk(b) && ClearedFrom(a, b)
    ensures InStep(a, b, Report(op, state))
  {
    if Apply(a, Report(op, state)).Some? {
      OpenKept(a, b, op);
      if Blocked(a) { BlockedStays(a, Report(op, state)); }
      ClearedStep(a, b, SetOp(a, op, state), SetOp(b, op, state));
    }
  }

  lemma ConfirmInStep(a: Tables, b: Tables, op: Id, item: Option<Id>, now: int)
    requires Inv(a) && TurnsOk(b) && ClearedFrom(a, b)
    ensures InStep(a, b, Confirm(op, item, now))
  {
    if op in a.ops && Open(a.ops[op].state) { ConfirmSame(a, b, op, item, now); }
  }

  lemma FailInStep(a: Tables, b: Tables, op: Id, now: int)
    requires Inv(a) && TurnsOk(b) && ClearedFrom(a, b)
    ensures InStep(a, b, Fail(op, now))
  {
    if op in a.ops && Open(a.ops[op].state) { FailSame(a, b, op, now); }
  }

  lemma UpdateInStep(a: Tables, b: Tables, u: Snapshot, now: int)
    requires Inv(a) && Inv(b) && ClearedFrom(a, b)
    ensures InStep(a, b, Update(u, now))
  {
    if !a.purged {
      if Stuck(a) {
        StuckSame(a, b);
        StuckUpdate(a, u, now);
        StuckUpdate(b, u, now);
      } else {
        UpdateSame(a, b, u, now);
      }
    }
  }

  lemma DeleteInStep(a: Tables, b: Tables)
    requires TurnsOk(a) && TurnsOk(b) && ClearedFrom(a, b)
    ensures InStep(a, b, DeleteHistory)
  {
    SameBusy(a, b);
    assert (map o | o in a.ops :: a.ops[o].(payload := None)) == (map o | o in b.ops :: b.ops[o].(payload := None));
  }

  lemma PurgeInStep(a: Tables, b: Tables)
    requires TurnsOk(a) && TurnsOk(b) && ClearedFrom(a, b)
    ensures InStep(a, b, PurgeOld)
  {
    SameBusy(a, b);
    ClearedStep(a, b, DoPurge(a), DoPurge(b));
  }

  predicate RequestStep(s: Step) {
    s.Ask? || s.Withdraw? || s.Content? || s.ExpireRequest?
  }

  // Steps about requests and content neither read nor write an operation or the queue.
  lemma RequestParts(t: Tables, s: Step)
    requires TurnsOk(t) && RequestStep(s) && Apply(t, s).Some?
    ensures var t' := Apply(t, s).value; t' == t.(requests := t'.requests, last := t'.last)
  {
  }

  lemma RequestAlike(a: Tables, b: Tables, s: Step)
    requires TurnsOk(a) && TurnsOk(b) && ClearedFrom(a, b) && RequestStep(s)
    ensures Apply(a, s).Some? == Apply(b, s).Some?
    ensures Apply(a, s).Some? ==>
      Apply(b, s).value.requests == Apply(a, s).value.requests && Apply(b, s).value.last == Apply(a, s).value.last
  {
  }

  lemma RequestCleared(a: Tables, b: Tables, a': Tables, b': Tables)
    requires ClearedFrom(a, b) && a' == a.(requests := a'.requests, last := a'.last) && b' == b.(requests := a'.requests, last := a'.last)
    ensures ClearedFrom(a', b')
  {
    forall o | o in a.ops && Useless(a, o)
      ensures Useless(a', o)
    {
      assert Blocked(a) ==> Blocked(a');
    }
  }

  lemma OtherInStep(a: Tables, b: Tables, s: Step)
    requires Inv(a) && TurnsOk(b) && ClearedFrom(a, b) && RequestStep(s)
    ensures InStep(a, b, s)
  {
    RequestAlike(a, b, s);
    if Apply(a, s).Some? {
      RequestParts(a, s);
      RequestParts(b, s);
      RequestCleared(a, b, Apply(a, s).value, Apply(b, s).value);
    }
  }

  lemma StepInStep(a: Tables, b: Tables, s: Step)
    requires Inv(a) && Inv(b) && ClearedFrom(a, b) && !s.ClearPayload?
    ensures InStep(a, b, s)
  {
    match s
    case Admit(_, _, _, _, _) => AdmitInStep(a, b, s);
    case Report(op, state) => ReportInStep(a, b, op, state);
    case Confirm(op, item, now) => ConfirmInStep(a, b, op, item, now);
    case Fail(op, now) => FailInStep(a, b, op, now);
    case Update(u, now) => UpdateInStep(a, b, u, now);
    case PurgeOld => PurgeInStep(a, b);
    case DeleteHistory => DeleteInStep(a, b);
    case _ => OtherInStep(a, b, s);
  }

  lemma OrphanStep(t: Tables, s: Step)
    requires Inv(t) && NoOrphan(t) && Honest(t, s) && Apply(t, s).Some?
    ensures NoOrphan(Apply(t, s).value)
  {
    var t' := Apply(t, s).value;
    if !t'.purged {
      StepPurged(t, s);
      QueueStep(t, s);
      ConfirmedBy(t, s);
      StepOps(t, s);
      forall o | o in t'.ops && t'.ops[o].kind.Queue? && t'.ops[o].state.Confirmed?
        ensures OpQueued(t'.queue, o)
      {
        if OpQueued(t.queue, o) { ExtendsQueued(t.queue, t'.queue, o); } else { ConfirmEnqueues(t, o, s.item, s.now); }
      }
    }
  }

  lemma ExtendsQueued(a: seq<Row>, b: seq<Row>, o: Id)
    requires Extends(a, b) && OpQueued(a, o)
    ensures OpQueued(b, o)
  {
    var i :| 0 <= i < |a| && a[i].op == o;
    assert b[i].(state := Queued) == a[i].(state := Queued);
    assert b[i] in b;
  }

  // Confirming an enqueue leaves its row in the queue, unless it names an item that is
  // already listed while its own operation has none. This is the only way to an orphan.
  lemma ConfirmEnqueues(t: Tables, op: Id, item: Option<Id>, now: int)
    requires Inv(t) && op in t.ops && Open(t.ops[op].state) && t.ops[op].kind.Queue? && DoConfirm(t, op, item, now).Some?
    ensures OpQueued(DoConfirm(t, op, item, now).value.queue, op) <==> item.Some? && (Listed(t, item.value) ==> OpQueued(t.queue, op))
  {
    ConfirmRest(t, op, item, now);
    if !Listed(t, item.value) {
      var k := Spent(t.queue);
      var items := Items(ActiveRows(t.queue)) + [Item(item.value, op, t.ops[op].payload.value.text, now, false)];
      OrderIsReported(t.ops, t.queue, k, items);
      var r := QueueMirror(t.ops, t.queue, items).value;
      assert HoldsAt(t.ops, t.queue, r, items[|items| - 1], k + (|items| - 1));
      assert r[k + |items| - 1] in r;
    }
  }

  // ----- runs -----

  // The machine without clearing skips that step.
  ghost function Keep(t: Tables, s: Step): Tables
    requires Inv(t)
  {
    if s.ClearPayload? then t else After(t, s)
  }

  // Which transactions went through, and the tables at the end.
  ghost function KeepRun(t: Tables, steps: seq<Step>): (seq<bool>, Tables)
    requires Inv(t)
    decreases |steps|
  {
    if steps == [] then ([], t)
    else
      AfterKeeps(t, steps[0]);
      var (rest, end) := KeepRun(Keep(t, steps[0]), steps[1..]);
      (if steps[0].ClearPayload? then rest else [Apply(t, steps[0]).Some?] + rest, end)
  }

  ghost function ClearRun(t: Tables, steps: seq<Step>): (seq<bool>, Tables)
    requires Inv(t)
    decreases |steps|
  {
    if steps == [] then ([], t)
    else
      AfterKeeps(t, steps[0]);
      var (rest, end) := ClearRun(After(t, steps[0]), steps[1..]);
      (if steps[0].ClearPayload? then rest else [Apply(t, steps[0]).Some?] + rest, end)
  }

  // No step clears the payload of a live orphan.
  ghost predicate Spares(t: Tables, steps: seq<Step>)
    requires Inv(t)
    decreases |steps|
  {
    steps == [] ||
    (&& !(steps[0].ClearPayload? && LiveOrphan(t, steps[0].op))
     && (AfterKeeps(t, steps[0]); Spares(After(t, steps[0]), steps[1..])))
  }

  lemma ClearStep(a: Tables, b: Tables, op: Id)
    requires Inv(a) && Inv(b) && ClearedFrom(a, b) && !LiveOrphan(b, op)
    ensures ClearedFrom(a, After(b, ClearPayload(op)))
  {
    if op in b.ops && Clearable(b, op) { ClearableIsUseless(a, b, op); }
  }

  lemma RefineStep(a: Tables, b: Tables, s: Step)
    requires Inv(a) && Inv(b) && ClearedFrom(a, b) && !(s.ClearPayload? && LiveOrphan(b, s.op))
    ensures ClearedFrom(Keep(a, s), After(b, s))
    ensures !s.ClearPayload? ==> Apply(a, s).Some? == Apply(b, s).Some?
  {
    if s.ClearPayload? { ClearStep(a, b, s.op); } else { StepInStep(a, b, s); }
  }

  // The refinement. Whatever else is cleared and whenever, exactly the same transactions are
  // accepted as without any clearing, and the tables differ only in payloads nobody needs.
  lemma {:induction false} SparingRefines(a: Tables, b: Tables, steps: seq<Step>)
    requires Inv(a) && Inv(b) && ClearedFrom(a, b) && Spares(b, steps)
    ensures KeepRun(a, steps).0 == ClearRun(b, steps).0 && ClearedFrom(KeepRun(a, steps).1, ClearRun(b, steps).1)
    decreases |steps|
  {
    if steps != [] {
      AfterKeeps(a, steps[0]);
      AfterKeeps(b, steps[0]);
      RefineStep(a, b, steps[0]);
      SparingRefines(Keep(a, steps[0]), After(b, steps[0]), steps[1..]);
    }
  }

  // ----- honest receipts leave no orphans -----

  ghost predicate HonestRun(t: Tables, steps: seq<Step>)
    requires Inv(t)
    decreases |steps|
  {
    steps == [] || (Honest(t, steps[0]) && (AfterKeeps(t, steps[0]); HonestRun(After(t, steps[0]), steps[1..])))
  }

  lemma {:induction false} HonestSpares(t: Tables, steps: seq<Step>)
    requires Inv(t) && NoOrphan(t) && HonestRun(t, steps)
    ensures Spares(t, steps)
    decreases |steps|
  {
    if steps != [] {
      AfterKeeps(t, steps[0]);
      if Apply(t, steps[0]).Some? { OrphanStep(t, steps[0]); }
      HonestSpares(After(t, steps[0]), steps[1..]);
    }
  }

  // With honest receipts clearing is a refinement over every run.
  lemma ClearingRefines(t: Tables, steps: seq<Step>)
    requires Inv(t) && NoOrphan(t) && HonestRun(t, steps)
    ensures KeepRun(t, steps).0 == ClearRun(t, steps).0 && ClearedFrom(KeepRun(t, steps).1, ClearRun(t, steps).1)
  {
    HonestSpares(t, steps);
    SparingRefines(t, t, steps);
  }
}
