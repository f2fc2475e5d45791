// The command protocol and one session's rows together. Both speak of the same table of
// operations: every protocol step moves at most one operation, out of an open state, and the
// session transaction that belongs to the move finds its guard met.
module Coupling {
  import opened Basics
  import opened SessionTables
  import opened SessionMirror
  import opened SessionSafety
  import opened SessionTheorems
  import opened PayloadGc
  import opened StuckQueue
  import Wire = ProtocolWorld
  import WireSafety = ProtocolSafety
  import WireTheorems = ProtocolTheorems

  // ----- one protocol step, seen from the operations table -----

  function View(s: Wire.OpState): OpState {
    match s
    case Accepted => Accepted
    case Delivered => Delivered
    case Reconciling => Reconciling
    case Confirmed => Confirmed
    case Failed => Rejected
  }

  // The operation's state is changed from one table to the other.
  predicate Moved(a: Wire.Gateway, b: Wire.Gateway, op: Id) {
    op in a.rows && op in b.rows && a.rows[op].state != b.rows[op].state
  }

  // One row is new or changed, the others are the same.
  predicate OneRow(a: Wire.Gateway, b: Wire.Gateway, op: Id) {
    forall o :: o in a.rows && o != op ==> o in b.rows && b.rows[o] == a.rows[o]
  }

  function Subject(w: Wire.World, s: Wire.Step): Id
    requires Wire.Enabled(w, s)
  {
    match s
    case Admit(cmd) => cmd.op
    case Dispatch(_, _) => w.g.pc.op
    case EnqueueCommand(_) => w.g.pc.op
    case WriteHeld(e, _, _, _) =>
      var d := w.links[e].held[0];
      if d.Deliver? then d.cmd.op else 0
    case Receive(e, _) => w.links[e].up[0].op
    case Expire(op, _, _) => op
    case Recover(op) => op
    case Invalidate(op) => op
    case _ => 0
  }

  // What a handler may do to one operation.
  predicate MoveOk(s: Wire.Step, a: Wire.OpState, b: Wire.OpState) {
    b == a || (Wire.Open(a) && !b.Accepted? && (b.Confirmed? ==> s.Receive? && s.effects))
  }

  predicate OnlySubject(w: Wire.World, s: Wire.Step)
    requires Wire.Enabled(w, s)
  {
    OneRow(w.g, Wire.Apply(w, s).g, Subject(w, s)) && w.g.rows.Keys <= Wire.Apply(w, s).g.rows.Keys
  }

  lemma {:induction false} CommandSubject(w: Wire.World, s: Wire.Step)
    requires Wire.Enabled(w, s) && (s.Admit? || s.Dispatch? || s.EnqueueCommand? || s.AbortDispatch? || s.Boot?)
    ensures OnlySubject(w, s)
  {
  }

  lemma {:induction false} FrameSubject(w: Wire.World, s: Wire.Step)
    requires Wire.Enabled(w, s) && (s.WriteHeld? || s.Receive?)
    ensures OnlySubject(w, s)
  {
  }

  lemma {:induction false} DoubtSubject(w: Wire.World, s: Wire.Step)
    requires Wire.Enabled(w, s) && (s.Expire? || s.Recover? || s.Invalidate?)
    ensures OnlySubject(w, s)
  {
  }

  lemma {:induction false} OneSubject(w: Wire.World, s: Wire.Step)
    requires Wire.Enabled(w, s)
    ensures OnlySubject(w, s)
  {
    if s.Admit? || s.Dispatch? || s.EnqueueCommand? || s.AbortDispatch? || s.Boot? { CommandSubject(w, s); }
    else if s.WriteHeld? || s.Receive? { FrameSubject(w, s); }
    else if s.Expire? || s.Recover? || s.Invalidate? { DoubtSubject(w, s); }
    else { WireTheorems.NodeLeavesRows(w, s); }
  }

  predicate Confirms(w: Wire.World, s: Wire.Step, op: Id)
    requires Wire.Enabled(w, s) && op in w.g.rows && op in Wire.Apply(w, s).g.rows
  {
    var a, b := w.g.rows[op].state, Wire.Apply(w, s).g.rows[op].state;
    b == a || (!b.Accepted? && (b.Confirmed? ==> s.Receive? && s.effects))
  }

  lemma {:induction false} CommandConfirms(w: Wire.World, s: Wire.Step, op: Id)
    requires Wire.Enabled(w, s) && op in w.g.rows && op in Wire.Apply(w, s).g.rows
    requires s.Admit? || s.Dispatch? || s.EnqueueCommand? || s.AbortDispatch? || s.Boot?
    ensures Confirms(w, s, op)
  {
  }

  lemma {:induction false} FrameConfirms(w: Wire.World, s: Wire.Step, op: Id)
    requires Wire.Enabled(w, s) && op in w.g.rows && op in Wire.Apply(w, s).g.rows && (s.WriteHeld? || s.Receive?)
    ensures Confirms(w, s, op)
  {
  }

  lemma {:induction false} DoubtConfirms(w: Wire.World, s: Wire.Step, op: Id)
    requires Wire.Enabled(w, s) && op in w.g.rows && op in Wire.Apply(w, s).g.rows && (s.Expire? || s.Recover? || s.Invalidate?)
    ensures Confirms(w, s, op)
  {
  }

  lemma {:induction false} Confirming(w: Wire.World, s: Wire.Step, op: Id)
    requires Wire.Enabled(w, s) && op in w.g.rows && op in Wire.Apply(w, s).g.rows
    ensures Confirms(w, s, op)
  {
    if s.Admit? || s.Dispatch? || s.EnqueueCommand? || s.AbortDispatch? || s.Boot? { CommandConfirms(w, s, op); }
    else if s.WriteHeld? || s.Receive? { FrameConfirms(w, s, op); }
    else if s.Expire? || s.Recover? || s.Invalidate? { DoubtConfirms(w, s, op); }
    else { WireTheorems.NodeLeavesRows(w, s); }
  }

  // Every step of the protocol changes the state of at most one operation, and only of an
  // open one; only an acknowledgement whose row updates succeed confirms.
  lemma {:induction false} OneMove(w: Wire.World, s: Wire.Step, op: Id)
    requires WireSafety.Inv(w) && Wire.Enabled(w, s) && op in w.g.rows
    ensures op in Wire.Apply(w, s).g.rows && MoveOk(s, w.g.rows[op].state, Wire.Apply(w, s).g.rows[op].state)
    ensures op != Subject(w, s) ==> Wire.Apply(w, s).g.rows[op] == w.g.rows[op]
  {
    OneSubject(w, s);
    Confirming(w, s, op);
    if !Wire.Open(w.g.rows[op].state) { WireTheorems.SettledStep(w, s, op); }
  }

  // ----- the same operations in both -----

  predicate Agree(g: Wire.Gateway, t: Tables) {
    forall o :: o in t.ops ==> o in g.rows && View(g.rows[o].state) == t.ops[o].state
  }

  // The transaction on the session's rows that an operation's move is part of.
  function Shared(op: Id, state: OpState, item: Option<Id>, now: int): Step {
    if state.Confirmed? then Confirm(op, item, now) else if state.Rejected? then Fail(op, now) else Report(op, state)
  }

  lemma {:induction false} SharedState(t: Tables, op: Id, state: OpState, item: Option<Id>, now: int)
    requires Inv(t) && op in t.ops && Open(t.ops[op].state) && !state.Accepted?
    ensures var r := Apply(t, Shared(op, state, item, now));
      && (r.Some? || (state.Confirmed? && DoConfirm(t, op, item, now).None?))
      && (r.Some? ==> r.value.ops == t.ops[op := t.ops[op].(state := state)])
  {
    if state.Confirmed? {
      if DoConfirm(t, op, item, now).Some? { ConfirmParts(t, op, item, now); }
    } else if state.Rejected? {
      FailParts(t, op, now);
    }
  }

  // The other operations of the session stand where they stood.
  predicate Else(a: Wire.Gateway, b: Wire.Gateway, t: Tables, op: Id) {
    forall o :: o in t.ops && o != op && o in a.rows ==> o in b.rows && b.rows[o].state == a.rows[o].state
  }

  lemma {:induction false} OthersStand(w: Wire.World, s: Wire.Step, t: Tables, op: Id)
    requires WireSafety.Inv(w) && Wire.Enabled(w, s) && op in w.g.rows && Moved(w.g, Wire.Apply(w, s).g, op)
    ensures Else(w.g, Wire.Apply(w, s).g, t, op)
  {
    OneMove(w, s, op);
    forall o | o in t.ops && o != op && o in w.g.rows
      ensures o in Wire.Apply(w, s).g.rows && Wire.Apply(w, s).g.rows[o].state == w.g.rows[o].state
    {
      OneMove(w, s, o);
    }
  }

  lemma {:induction false} AgreeOn(a: Wire.Gateway, b: Wire.Gateway, t: Tables, t': Tables, op: Id)
    requires Agree(a, t) && op in t.ops && op in b.rows && Else(a, b, t, op)
    requires t'.ops == t.ops[op := t.ops[op].(state := View(b.rows[op].state))]
    ensures Agree(b, t')
  {
  }

  lemma {:induction false} StateMatched(a: Wire.Gateway, b: Wire.Gateway, s: Wire.Step, t: Tables, op: Id, item: Option<Id>, now: int)
    requires Inv(t) && Agree(a, t) && op in t.ops && Moved(a, b, op) && Else(a, b, t, op)
    requires MoveOk(s, a.rows[op].state, b.rows[op].state)
    ensures var r := Apply(t, Shared(op, View(b.rows[op].state), item, now));
      && (r.None? ==> s.Receive? && s.effects && DoConfirm(t, op, item, now).None?)
      && (r.Some? ==> Agree(b, r.value))
  {
    var state := View(b.rows[op].state);
    SharedState(t, op, state, item, now);
    var r := Apply(t, Shared(op, state, item, now));
    if r.Some? { AgreeOn(a, b, t, r.value, op); }
  }

  // A move of one of the session's operations meets the guard of its transaction, which can
  // fail only by the row updates of a confirmation; then the protocol takes its step as rolled
  // back. Afterwards the tables agree again.
  lemma {:induction false} MoveMatched(w: Wire.World, s: Wire.Step, t: Tables, op: Id, item: Option<Id>, now: int)
    requires WireSafety.Inv(w) && Wire.Enabled(w, s) && Inv(t) && Agree(w.g, t)
    requires op in t.ops && Moved(w.g, Wire.Apply(w, s).g, op)
    ensures var r := Apply(t, Shared(op, View(Wire.Apply(w, s).g.rows[op].state), item, now));
      && (r.None? ==> s.Receive? && s.effects && DoConfirm(t, op, item, now).None?)
      && (r.Some? ==> Agree(Wire.Apply(w, s).g, r.value))
  {
    OneMove(w, s, op);
    OthersStand(w, s, t, op);
    StateMatched(w.g, Wire.Apply(w, s).g, s, t, op, item, now);
  }

  // A step that moves none of them leaves the tables in agreement.
  lemma {:induction false} OthersMatched(w: Wire.World, s: Wire.Step, t: Tables)
    requires WireSafety.Inv(w) && Wire.Enabled(w, s) && Agree(w.g, t)
    requires forall o :: o in t.ops ==> !Moved(w.g, Wire.Apply(w, s).g, o)
    ensures Agree(Wire.Apply(w, s).g, t)
  {
    forall o | o in t.ops
      ensures o in Wire.Apply(w, s).g.rows && Wire.Apply(w, s).g.rows[o].state == w.g.rows[o].state
    {
      OneMove(w, s, o);
    }
  }

  // ----- both together -----

  datatype Both = Both(w: Wire.World, t: Tables)

  // A protocol step with the row updates that share its transaction; the admission of a
  // command for this session; or a transaction on the session's rows alone.
  datatype Move = Frame(s: Wire.Step, item: Option<Id>, now: int) | Begin(s: Wire.Step, admit: Step) | Rows(step: Step)

  // The transactions that touch no operation's state.
  predicate RowsOnly(s: Step) {
    s.Update? || s.Ask? || s.Withdraw? || s.Content? || s.ExpireRequest? || s.PurgeOld? || s.DeleteHistory? || s.ClearPayload?
  }

  // An honest Node lists the items of enqueues it has executed.
  predicate HonestList(b: Both, s: Step) {
    s.Update? ==> forall i :: 0 <= i < |s.u.queue| && s.u.queue[i].op in b.t.ops ==> b.w.native[s.u.queue[i].op] > 0
  }

  // What happens to the session's rows in a protocol step.
  function Part(b: Both, s: Wire.Step, item: Option<Id>, now: int): Option<Step>
    requires Wire.Enabled(b.w, s)
  {
    var op, g' := Subject(b.w, s), Wire.Apply(b.w, s).g;
    if op in b.t.ops && Moved(b.w.g, g', op) then Some(Shared(op, View(g'.rows[op].state), item, now)) else None
  }

  // The transaction on the session's rows in any move.
  function RowStep(b: Both, m: Move): Option<Step>
    requires m.Rows? || Wire.Enabled(b.w, m.s)
  {
    match m
    case Frame(s, item, now) => Part(b, s, item, now)
    case Begin(_, admit) => Some(admit)
    case Rows(step) => Some(step)
  }

  ghost predicate Possible(b: Both, m: Move)
    requires b.t.turn in b.t.turns
  {
    match m
    case Frame(s, item, now) =>
      Wire.Enabled(b.w, s) && (Part(b, s, item, now).Some? ==> Apply(b.t, Part(b, s, item, now).value).Some?)
    case Begin(s, admit) => Wire.Enabled(b.w, s) && s.Admit? && admit.Admit? && admit.op == s.cmd.op && Admissible(b.t, admit)
    case Rows(step) => RowsOnly(step) && HonestList(b, step)
  }

  ghost function Next(b: Both, m: Move): Both
    requires b.t.turn in b.t.turns && Possible(b, m)
  {
    Both(if m.Rows? then b.w else Wire.Apply(b.w, m.s),
         if RowStep(b, m).Some? then After(b.t, RowStep(b, m).value) else b.t)
  }

  // ----- what both keep -----

  // What waits in the queue was executed.
  predicate Ran(w: Wire.World, rows: seq<Row>) {
    forall i :: 0 <= i < |rows| && ActiveRow(rows[i]) ==> w.native[rows[i].op] > 0
  }

  ghost predicate Sound(b: Both) {
    WireSafety.Inv(b.w) && Inv(b.t) && Agree(b.w.g, b.t) && Ran(b.w, b.t.queue)
  }

  lemma {:induction false} NativeGrows(w: Wire.World, s: Wire.Step, op: Id)
    requires Wire.Enabled(w, s)
    ensures Wire.Apply(w, s).native[op] >= w.native[op]
  {
  }

  // A rejected operation was not executed, so no item of it can be waiting.
  lemma {:induction false} NeverStuck(b: Both)
    requires Sound(b)
    ensures !Stuck(b.t)
  {
    forall i | 0 <= i < |b.t.queue|
      ensures !StuckRow(b.t.ops, b.t.queue[i])
    {
      var op := b.t.queue[i].op;
      if StuckRow(b.t.ops, b.t.queue[i]) {
        assert b.w.native[op] > 0 && b.w.g.rows[op].state.Failed?;
        NotFailed(b.w, op);
      }
    }
  }

  lemma {:induction false} NotFailed(w: Wire.World, op: Id)
    requires WireSafety.Inv(w) && op in w.g.rows && w.native[op] > 0
    ensures !w.g.rows[op].state.Failed?
  {
    assert WireSafety.RowOk(w, op);
    assert op in w.n.disk.journal && WireSafety.EntryOk(w, op, w.n.disk.journal[op]);
    WireSafety.DiskInMemory(w.n);
  }

  lemma {:induction false} ConfirmedRan(w: Wire.World, op: Id)
    requires WireSafety.Inv(w) && op in w.g.rows && w.g.rows[op].state.Confirmed?
    ensures w.native[op] > 0
  {
    assert WireSafety.RowOk(w, op);
    assert WireSafety.EntryOk(w, op, w.n.disk.journal[op]);
  }

  lemma {:induction false} RanGrows(w: Wire.World, s: Wire.Step, rows: seq<Row>)
    requires Wire.Enabled(w, s) && Ran(w, rows)
    ensures Ran(Wire.Apply(w, s), rows)
  {
    forall i | 0 <= i < |rows| && ActiveRow(rows[i])
      ensures Wire.Apply(w, s).native[rows[i].op] > 0
    {
      NativeGrows(w, s, rows[i].op);
    }
  }

  // A reconciled list leaves only items of the operations it names.
  lemma {:induction false} MirrorRan(w: Wire.World, ops: map<Id, Op>, rows: seq<Row>, k: nat, items: seq<Item>)
    requires Tidy(rows, k) && QueueMirror(ops, rows, items).Some?
    requires forall i :: 0 <= i < |items| && items[i].op in ops ==> w.native[items[i].op] > 0
    ensures Ran(w, QueueMirror(ops, rows, items).value)
  {
    var r := QueueMirror(ops, rows, items).value;
    OrderIsReported(ops, rows, k, items);
    forall i | 0 <= i < |r| && ActiveRow(r[i])
      ensures w.native[r[i].op] > 0
    {
      assert i >= k;
      assert Mirrors(ops, items[i - k]) && HoldsAt(ops, rows, r, items[i - k], k + (i - k));
    }
  }

  lemma {:induction false} UpdateRan(w: Wire.World, t: Tables, u: Snapshot, now: int)
    requires Inv(t) && !t.purged && SessionUpdate(t, u, now).Some? && HonestList(Both(w, t), Update(u, now))
    ensures Ran(w, SessionUpdate(t, u, now).value.queue)
  {
    var rows := BeforeMirror(t, u);
    UpdateMirrors(t, u, now);
    BeforeMirrorOk(t, u);
    MirrorRan(w, t.ops, rows, Spent(rows), u.queue);
  }

  // A confirmed enqueue adds its own item at most.
  lemma {:induction false} ConfirmRan(w: Wire.World, t: Tables, op: Id, item: Option<Id>, now: int)
    requires Inv(t) && Ran(w, t.queue) && w.native[op] > 0 && op in t.ops && DoConfirm(t, op, item, now).Some?
    ensures Ran(w, DoConfirm(t, op, item, now).value.queue)
  {
    ConfirmRest(t, op, item, now);
    if t.ops[op].kind.Queue? && !Listed(t, item.value) {
      var k, r := Spent(t.queue), DoConfirm(t, op, item, now).value.queue;
      var items := Items(ActiveRows(t.queue)) + [Item(item.value, op, t.ops[op].payload.value.text, now, false)];
      OrderIsReported(t.ops, t.queue, k, items);
      ActiveIsTail(t.queue, k);
      forall i | 0 <= i < |r| && ActiveRow(r[i])
        ensures w.native[r[i].op] > 0
      {
        if i < |t.queue| {
          assert t.queue[i].(state := Queued) == r[i].(state := Queued) && ActiveRow(t.queue[i]);
        } else {
          assert HoldsAt(t.ops, t.queue, r, items[i - k], k + (i - k));
        }
      }
    }
  }

  lemma {:induction false} SharedRan(w: Wire.World, t: Tables, op: Id, state: OpState, item: Option<Id>, now: int)
    requires Inv(t) && Ran(w, t.queue) && op in t.ops && Open(t.ops[op].state) && (state.Confirmed? ==> w.native[op] > 0)
    requires Apply(t, Shared(op, state, item, now)).Some?
    ensures Ran(w, Apply(t, Shared(op, state, item, now)).value.queue)
  {
    if state.Confirmed? { ConfirmRan(w, t, op, item, now); }
    else if state.Rejected? { FailParts(t, op, now); }
  }

  lemma {:induction false} PartMatched(w: Wire.World, s: Wire.Step, t: Tables, op: Id, item: Option<Id>, now: int)
    requires WireSafety.Inv(w) && Wire.Enabled(w, s) && WireSafety.Inv(Wire.Apply(w, s)) && Inv(t) && Agree(w.g, t) && Ran(w, t.queue)
    requires op in t.ops && Moved(w.g, Wire.Apply(w, s).g, op)
    ensures var w', m := Wire.Apply(w, s), Shared(op, View(Wire.Apply(w, s).g.rows[op].state), item, now);
      Apply(t, m).Some? ==> Agree(w'.g, Apply(t, m).value) && Ran(w', Apply(t, m).value.queue)
  {
    var w', m := Wire.Apply(w, s), Shared(op, View(Wire.Apply(w, s).g.rows[op].state), item, now);
    if Apply(t, m).Some? {
      OneMove(w, s, op);
      RanGrows(w, s, t.queue);
      MoveMatched(w, s, t, op, item, now);
      if w'.g.rows[op].state.Confirmed? { ConfirmedRan(w', op); }
      SharedRan(w', t, op, View(w'.g.rows[op].state), item, now);
    }
  }

  lemma {:induction false} Unmoved(w: Wire.World, s: Wire.Step, t: Tables)
    requires WireSafety.Inv(w) && Wire.Enabled(w, s) && Agree(w.g, t) && Ran(w, t.queue)
    requires Subject(w, s) in t.ops ==> !Moved(w.g, Wire.Apply(w, s).g, Subject(w, s))
    ensures Agree(Wire.Apply(w, s).g, t) && Ran(Wire.Apply(w, s), t.queue)
  {
    forall o | o in t.ops ensures !Moved(w.g, Wire.Apply(w, s).g, o) { OneMove(w, s, o); }
    OthersMatched(w, s, t);
    RanGrows(w, s, t.queue);
  }

  lemma {:induction false} PartKeeps(w: Wire.World, t: Tables, s: Wire.Step, op: Id, m: Step, item: Option<Id>, now: int)
    requires Sound(Both(w, t)) && Wire.Enabled(w, s) && op in t.ops && Moved(w.g, Wire.Apply(w, s).g, op)
    requires m == Shared(op, View(Wire.Apply(w, s).g.rows[op].state), item, now) && Apply(t, m).Some?
    ensures Sound(Both(Wire.Apply(w, s), After(t, m)))
  {
    WireSafety.StepKeeps(w, s);
    AfterKeeps(t, m);
    PartMatched(w, s, t, op, item, now);
  }

  lemma {:induction false} UnmovedKeeps(w: Wire.World, t: Tables, s: Wire.Step)
    requires Sound(Both(w, t)) && Wire.Enabled(w, s)
    requires Subject(w, s) in t.ops ==> !Moved(w.g, Wire.Apply(w, s).g, Subject(w, s))
    ensures Sound(Both(Wire.Apply(w, s), t))
  {
    WireSafety.StepKeeps(w, s);
    Unmoved(w, s, t);
  }

  lemma {:induction false} FrameNext(b: Both, s: Wire.Step, item: Option<Id>, now: int)
    requires b.t.turn in b.t.turns && Possible(b, Frame(s, item, now))
    ensures Next(b, Frame(s, item, now)) ==
      Both(Wire.Apply(b.w, s), if Part(b, s, item, now).Some? then After(b.t, Part(b, s, item, now).value) else b.t)
  {
  }

  lemma {:induction false} FrameKeeps(b: Both, s: Wire.Step, item: Option<Id>, now: int)
    requires Sound(b) && Possible(b, Frame(s, item, now))
    ensures Sound(Next(b, Frame(s, item, now)))
  {
    var m := Part(b, s, item, now);
    FrameNext(b, s, item, now);
    if m.Some? {
      PartKeeps(b.w, b.t, s, Subject(b.w, s), m.value, item, now);
    } else {
      UnmovedKeeps(b.w, b.t, s);
    }
  }

  lemma {:induction false} BeginAgrees(w: Wire.World, cmd: Wire.Commands.Command, t: Tables, admit: Step)
    requires Wire.Enabled(w, Wire.Step.Admit(cmd)) && Agree(w.g, t) && admit.Admit? && admit.op == cmd.op
    ensures Agree(Wire.Apply(w, Wire.Step.Admit(cmd)).g, DoAdmit(t, admit)) && DoAdmit(t, admit).queue == t.queue
  {
  }

  lemma {:induction false} AdmissionKeeps(w: Wire.World, t: Tables, s: Wire.Step, admit: Step)
    requires Sound(Both(w, t)) && Wire.Enabled(w, s) && s.Admit? && admit.Admit? && admit.op == s.cmd.op && Admissible(t, admit)
    ensures Sound(Both(Wire.Apply(w, s), DoAdmit(t, admit)))
  {
    WireSafety.StepKeeps(w, s);
    StepKeeps(t, admit);
    RanGrows(w, s, t.queue);
    BeginAgrees(w, s.cmd, t, admit);
  }

  lemma {:induction false} BeginNext(b: Both, s: Wire.Step, admit: Step)
    requires b.t.turn in b.t.turns && Possible(b, Begin(s, admit))
    ensures Next(b, Begin(s, admit)) == Both(Wire.Apply(b.w, s), DoAdmit(b.t, admit))
  {
  }

  lemma {:induction false} BeginKeeps(b: Both, s: Wire.Step, admit: Step)
    requires Sound(b) && Possible(b, Begin(s, admit))
    ensures Sound(Next(b, Begin(s, admit)))
  {
    BeginNext(b, s, admit);
    AdmissionKeeps(b.w, b.t, s, admit);
  }

  lemma {:induction false} RowsOnlyParts(t: Tables, s: Step)
    requires Inv(t) && RowsOnly(s) && Apply(t, s).Some?
    ensures var t' := Apply(t, s).value; t'.ops.Keys == t.ops.Keys && forall o :: o in t.ops ==> t'.ops[o].state == t.ops[o].state
  {
    if s.Update? { UpdateParts(t, s.u, s.now); }
  }

  lemma {:induction false} RowsRan(w: Wire.World, t: Tables, step: Step)
    requires Inv(t) && Ran(w, t.queue) && RowsOnly(step) && HonestList(Both(w, t), step) && Apply(t, step).Some?
    requires Inv(Apply(t, step).value)
    ensures Ran(w, Apply(t, step).value.queue)
  {
    if step.Update? { UpdateRan(w, t, step.u, step.now); }
    else if !Apply(t, step).value.purged { QueueUntouched(t, step); }
  }

  lemma {:induction false} SameStates(g: Wire.Gateway, t: Tables, t': Tables)
    requires Agree(g, t) && t'.ops.Keys == t.ops.Keys && forall o :: o in t.ops ==> t'.ops[o].state == t.ops[o].state
    ensures Agree(g, t')
  {
  }

  lemma {:induction false} RowsKeeps(b: Both, step: Step)
    requires Sound(b) && Possible(b, Rows(step))
    ensures Sound(Next(b, Rows(step)))
  {
    AfterKeeps(b.t, step);
    if Apply(b.t, step).Some? {
      RowsOnlyParts(b.t, step);
      SameStates(b.w.g, b.t, Apply(b.t, step).value);
      RowsRan(b.w, b.t, step);
    }
    assert Next(b, Rows(step)) == Both(b.w, After(b.t, step));
  }

  lemma {:induction false} MoveKeeps(b: Both, m: Move)
    requires Sound(b) && Possible(b, m)
    ensures Sound(Next(b, m))
  {
    match m
    case Frame(s, item, now) => FrameKeeps(b, s, item, now);
    case Begin(s, admit) => BeginKeeps(b, s, admit);
    case Rows(step) => RowsKeeps(b, step);
  }

  // ----- runs -----

  ghost predicate Together(b: Both, moves: seq<Move>, b': Both)
    requires Sound(b)
    decreases |moves|
  {
    if moves == [] then b' == b
    else Possible(b, moves[0]) && (MoveKeeps(b, moves[0]); Together(Next(b, moves[0]), moves[1..], b'))
  }

  // The protocol's share of a run, and the session's.
  function Frames(moves: seq<Move>): seq<Wire.Step> {
    if moves == [] then [] else (if moves[0].Rows? then [] else [moves[0].s]) + Frames(moves[1..])
  }

  function Listing(s: Option<Step>): seq<Step> {
    if s.Some? then [s.value] else []
  }

  ghost function Transactions(b: Both, moves: seq<Move>): seq<Step>
    requires Sound(b)
    decreases |moves|
  {
    if moves == [] || !Possible(b, moves[0]) then []
    else
      MoveKeeps(b, moves[0]);
      Listing(RowStep(b, moves[0])) + Transactions(Next(b, moves[0]), moves[1..])
  }

  lemma {:induction false} RunsOn(w: Wire.World, s: Wire.Step, rest: seq<Wire.Step>, w': Wire.World)
    requires Wire.Enabled(w, s) && Wire.Runs(Wire.Apply(w, s), rest, w')
    ensures Wire.Runs(w, [s] + rest, w')
  {
    assert ([s] + rest)[0] == s && ([s] + rest)[1..] == rest;
  }

  lemma {:induction false} RunOn(t: Tables, s: Step, rest: seq<Step>)
    requires Inv(t)
    ensures Inv(After(t, s)) && Run(t, [s] + rest) == Run(After(t, s), rest)
  {
    AfterKeeps(t, s);
    assert ([s] + rest)[0] == s && ([s] + rest)[1..] == rest;
  }

  lemma {:induction false} TogetherFrames(b: Both, moves: seq<Move>, b': Both)
    requires Sound(b) && Together(b, moves, b')
    ensures Wire.Runs(b.w, Frames(moves), b'.w)
    decreases |moves|
  {
    if moves != [] {
      MoveKeeps(b, moves[0]);
      TogetherFrames(Next(b, moves[0]), moves[1..], b');
      if moves[0].Rows? {
        assert Frames(moves) == Frames(moves[1..]);
      } else {
        RunsOn(b.w, moves[0].s, Frames(moves[1..]), b'.w);
      }
    }
  }

  lemma {:induction false} NextRows(t: Tables, s: Option<Step>, t': Tables, rest: seq<Step>)
    requires Inv(t) && t' == (if s.Some? then After(t, s.value) else t)
    ensures Inv(t') && Run(t, Listing(s) + rest) == Run(t', rest)
  {
    if s.Some? {
      RunOn(t, s.value, rest);
    } else {
      assert Listing(s) + rest == rest;
    }
  }

  lemma {:induction false} TogetherRows(b: Both, moves: seq<Move>, b': Both)
    requires Sound(b) && Together(b, moves, b')
    ensures b'.t == Run(b.t, Transactions(b, moves))
    decreases |moves|
  {
    if moves != [] {
      MoveKeeps(b, moves[0]);
      TogetherRows(Next(b, moves[0]), moves[1..], b');
      NextRows(b.t, RowStep(b, moves[0]), Next(b, moves[0]).t, Transactions(Next(b, moves[0]), moves[1..]));
    }
  }

  lemma {:induction false} TogetherKeeps(b: Both, moves: seq<Move>, b': Both)
    requires Sound(b) && Together(b, moves, b')
    ensures Sound(b')
    decreases |moves|
  {
    if moves != [] {
      MoveKeeps(b, moves[0]);
      TogetherKeeps(Next(b, moves[0]), moves[1..], b');
    }
  }

  // Every run of both is a run of the protocol and a run of the session's transactions, the
  // tables agree at its end, and no queue is ever stuck.
  lemma {:induction false} TogetherRuns(b: Both, moves: seq<Move>, b': Both)
    requires Sound(b) && Together(b, moves, b')
    ensures Wire.Runs(b.w, Frames(moves), b'.w) && b'.t == Run(b.t, Transactions(b, moves))
    ensures Agree(b'.w.g, b'.t) && !Stuck(b'.t)
  {
    TogetherFrames(b, moves, b');
    TogetherRows(b, moves, b');
    TogetherKeeps(b, moves, b');
    NeverStuck(b');
  }

  // The creation of a session begins such a run in any reachable state of the protocol.
  lemma {:induction false} CreatedSound(w: Wire.World, cmd: Wire.Commands.Command, turn: Id, capabilities: Id, revision: nat, payload: Payload)
    requires WireSafety.Inv(w) && Wire.Enabled(w, Wire.Step.Admit(cmd)) && payload.nextTurn.None?
    ensures Sound(Both(Wire.Apply(w, Wire.Step.Admit(cmd)), Created(turn, cmd.op, capabilities, revision, payload)))
  {
    WireSafety.StepKeeps(w, Wire.Step.Admit(cmd));
    CreatedOk(turn, cmd.op, capabilities, revision, payload);
  }
}
