// The Gateway's handlers for operations, outbox rows and receipts, as they update the tables
// in place, with the loops of restart, expiry and revocation.
module GatewayOperations {
  import opened Basics
  import opened Commands
  import opened ProtocolWorld

  const EXPIRE_LIMIT := 100

  // What a restart, or the deadline, makes of one row: never written means failed, anything
  // else in doubt; a settled operation is left alone.
  function Recovered(r: Row): Row {
    if !Open(r.state) then r
    else if r.outbox.Pending? then Row(r.cmd, OpState.Failed, NotSent, None)
    else Row(r.cmd, Reconciling, if r.outbox.OutDelivered? then OutDelivered else Uncertain, None)
  }

  // What revoking the Node's access makes of one row.
  function Invalidated(r: Row): Row {
    if !Open(r.state) then r
    else if r.outbox.Pending? then Row(r.cmd, OpState.Failed, NotSent, None)
    else r.(state := Reconciling, result := None)
  }

  function MapRows(rows: map<Id, Row>, f: Row -> Row, chosen: set<Id>): map<Id, Row> {
    map o | o in rows :: if o in chosen then f(rows[o]) else rows[o]
  }

  lemma MapOne(rows: map<Id, Row>, f: Row -> Row, chosen: set<Id>, o: Id)
    requires o in rows && o !in chosen
    ensures MapRows(rows, f, chosen)[o] == rows[o]
    ensures MapRows(rows, f, chosen + {o}) == MapRows(rows, f, chosen)[o := f(rows[o])]
  {
  }

  function OpenOps(rows: map<Id, Row>): set<Id> {
    set o | o in rows && Open(rows[o].state)
  }

  // The operations to query after expiry: those that may have been written.
  function ToQuery(rows: map<Id, Row>, due: seq<Id>): seq<Id>
    requires forall o :: o in due ==> o in rows
  {
    if due == [] then []
    else
      var rest, o := due[..|due| - 1], due[|due| - 1];
      ToQuery(rows, rest) + if rows[o].outbox.Pending? then [] else [o]
  }

  // ----- what the deadline query selects -----

  function DueOps(rows: map<Id, Row>, now: int): set<Id> {
    set o | o in rows && rows[o].cmd.deadline <= now && (rows[o].state.Accepted? || rows[o].state.Delivered?)
  }

  // Different due rows by deadline; all of them, or as many as the limit allows and none of
  // those left out is due before one of those taken.
  predicate Selection(rows: map<Id, Row>, now: int, due: seq<Id>) {
    && (forall i, j :: 0 <= i < j < |due| ==> due[i] != due[j])
    && (forall o :: o in due ==> o in DueOps(rows, now))
    && (forall i, j :: 0 <= i < j < |due| ==> Before(rows, due[i], due[j]))
    && |due| <= EXPIRE_LIMIT
    && (forall o :: o in DueOps(rows, now) && o !in due ==>
          |due| == EXPIRE_LIMIT && forall x :: x in due ==> Before(rows, x, o))
  }

  // Some rows taken in that order, the rest still to be looked at.
  predicate Picked(rows: map<Id, Row>, now: int, due: seq<Id>, rest: set<Id>) {
    && rest <= DueOps(rows, now)
    && (forall i, j :: 0 <= i < j < |due| ==> due[i] != due[j] && Before(rows, due[i], due[j]))
    && (forall o :: o in due ==> o in DueOps(rows, now) && o !in rest)
    && (forall o :: o in DueOps(rows, now) ==> o in due || o in rest)
    && (forall x, o :: x in due && o in rest ==> Before(rows, x, o))
  }

  predicate Before(rows: map<Id, Row>, a: Id, b: Id) {
    a in rows && b in rows && rows[a].cmd.deadline <= rows[b].cmd.deadline
  }

  method Earliest(rows: map<Id, Row>, ops: set<Id>) returns (op: Id)
    requires ops != {} && forall o :: o in ops ==> o in rows
    ensures op in ops && forall o :: o in ops ==> Before(rows, op, o)
  {
    op :| op in ops;
    var seen := {op};
    while ops - seen != {}
      invariant seen <= ops && op in seen && forall o :: o in seen ==> Before(rows, op, o)
      decreases ops - seen
    {
      var o :| o in ops - seen;
      if rows[o].cmd.deadline < rows[op].cmd.deadline { op := o; }
      seen := seen + {o};
    }
    forall o | o in ops ensures o in seen { assert o !in ops - seen; }
  }

  lemma PickOne(rows: map<Id, Row>, now: int, due: seq<Id>, rest: set<Id>, op: Id)
    requires Picked(rows, now, due, rest) && op in rest && forall o :: o in rest ==> Before(rows, op, o)
    ensures Picked(rows, now, due + [op], rest - {op})
  {
  }

  lemma PickedAll(rows: map<Id, Row>, now: int, due: seq<Id>, rest: set<Id>)
    requires Picked(rows, now, due, rest) && |due| <= EXPIRE_LIMIT && (rest == {} || |due| == EXPIRE_LIMIT)
    ensures Selection(rows, now, due)
  {
  }

  class Operations {
    const me: Identity
    var rows: map<Id, Row>
    var epoch: nat
    var revoked: bool
    var registered: Option<nat>
    // users.last_revision: one change row for each update of an operation.
    var revision: nat

    ghost function View(): Gateway
      reads this
    {
      Gateway(rows, epoch, revoked, registered, Idle)
    }

    constructor (me: Identity)
      ensures View() == Initial(me).g && this.me == me && revision == 0
    {
      this.me := me;
      rows, epoch, revoked, registered, revision := map[], 0, false, None, 0;
    }

    // `finishOp` and the change it records.
    method FinishOp(op: Id, state: OpState, result: Option<Receipt>)
      requires op in rows
      modifies this`rows, this`revision
      ensures View() == ProtocolWorld.FinishOp(old(View()), op, state, result) && revision == old(revision) + 1
    {
      rows := rows[op := rows[op].(state := state, result := result)];
      revision := revision + 1;
    }

    method SetOutbox(op: Id, outbox: Outbox)
      requires op in rows
      modifies this`rows
      ensures View() == ProtocolWorld.SetOutbox(old(View()), op, outbox)
    {
      rows := rows[op := rows[op].(outbox := outbox)];
    }

    // `failUnsent`, apart from the session's own rows.
    method FailUnsent(op: Id)
      requires op in rows
      modifies this`rows, this`revision
      ensures View() == ProtocolWorld.FailUnsent(old(View()), op) && revision == old(revision) + 1
    {
      SetOutbox(op, NotSent);
      FinishOp(op, OpState.Failed, None);
    }

    method Doubt(op: Id)
      requires op in rows
      modifies this`rows, this`revision
      ensures View() == ProtocolWorld.Doubt(old(View()), op) && revision == old(revision) + 1
    {
      if !rows[op].outbox.OutDelivered? { SetOutbox(op, Uncertain); }
      FinishOp(op, Reconciling, None);
    }

    // The durable part of `command`: the operation and its pending outbox row, unless an
    // unresolved control of the session stands in the way.
    method Admit(cmd: Command) returns (ok: bool)
      requires cmd.op !in rows
      modifies this`rows, this`revision
      ensures ok <==> registered == Some(cmd.epoch) && (!cmd.kind.Create? ==> !Busy(old(View()), cmd.session))
      ensures rows == if ok then old(rows)[cmd.op := Row(cmd, Accepted, Pending, None)] else old(rows)
    {
      if registered != Some(cmd.epoch) { return false; }
      if !cmd.kind.Create? && cmd.session.Some? {
        var busy := exists o :: o in rows && rows[o].cmd.session == cmd.session && Open(rows[o].state) && Control(rows[o].cmd.kind);
        if busy { return false; }
      }
      rows := rows[cmd.op := Row(cmd, Accepted, Pending, None)];
      revision := revision + 1;
      return true;
    }

    // `dispatch`: the write intent is stored before the frame is handed over, and a frame
    // that was certainly not handed over fails the operation. A connection whose queue is
    // full is stopped.
    method Dispatch(op: Id, now: int, online: bool, fits: bool) returns (queued: bool)
      requires op in rows && rows[op].state.Accepted? && rows[op].outbox.Pending?
      modifies this`rows, this`revision, this`registered
      ensures registered == (
        if online && old(registered) == Some(old(rows)[op].cmd.epoch) && now < old(rows)[op].cmd.deadline && !fits then None else old(registered))
      ensures queued <==> online && old(registered) == Some(old(rows)[op].cmd.epoch) && now < old(rows)[op].cmd.deadline && fits
      ensures rows == old(rows)[op :=
        if queued then old(rows)[op].(outbox := Dispatching) else Row(old(rows)[op].cmd, OpState.Failed, NotSent, None)]
    {
      if !online || registered != Some(rows[op].cmd.epoch) || rows[op].cmd.deadline <= now {
        FailUnsent(op);
        return false;
      }
      SetOutbox(op, Dispatching);
      if !fits {
        registered := None;
        FailUnsent(op);
        return false;
      }
      return true;
    }

    // `acknowledge`.
    method Acknowledge(from: nat, m: Up, effects: bool) returns (outcome: Outcome)
      modifies this`rows, this`revision
      ensures (View(), outcome) == ProtocolWorld.Acknowledge(old(View()), me, from, m, effects)
      // A settled row, a report of another connection and one that cannot be changes nothing.
      ensures m.op !in old(rows) ==> outcome == NotFound && rows == old(rows) && revision == old(revision)
      ensures m.op in old(rows) && (old(rows)[m.op].state.Confirmed? || old(rows)[m.op].state.Failed?) ==>
        && rows == old(rows) && revision == old(revision)
        && outcome == if m.report.RepConfirmed? && old(rows)[m.op].result != Some(m.report.receipt) then SourceConflict else Handled
      ensures m.op in old(rows) && !(old(rows)[m.op].state.Confirmed? || old(rows)[m.op].state.Failed?) ==>
        var row := old(rows)[m.op];
        if !m.query && row.cmd.epoch != from then outcome == StaleEpoch && rows == old(rows) && revision == old(revision)
        else
          match m.report
          case RepDelivered =>
            outcome == Handled && rows == old(rows)[m.op := Row(row.cmd, Delivered, OutDelivered, None)] && revision == old(revision) + 1
          case RepUnknown =>
            outcome == Handled && rows == old(rows)[m.op := Row(row.cmd, Reconciling, row.outbox, None)] && revision == old(revision) + 1
          case RepRejected =>
            outcome == Handled && rows == old(rows)[m.op := Row(row.cmd, OpState.Failed, NotSent, None)] && revision == old(revision) + 1
          case NotSeen =>
            if !m.query then outcome == Invalid && rows == old(rows) && revision == old(revision)
            else if row.outbox.OutDelivered? then
              && outcome == SourceConflict && revision == old(revision) + 1
              && rows == old(rows)[m.op := Row(row.cmd, Reconciling, OutDelivered, None)]
            else
              && outcome == Handled && revision == old(revision) + 1
              && rows == old(rows)[m.op := Row(row.cmd, OpState.Failed, NotSent, None)]
          case RepConfirmed(r) =>
            if !ReceiptMatches(row.cmd, me.node, r) then outcome == Invalid && rows == old(rows) && revision == old(revision)
            else if !effects then outcome == RolledBack && rows == old(rows) && revision == old(revision)
            else
              && outcome == Handled && revision == old(revision) + 1
              && rows == old(rows)[m.op := Row(row.cmd, Confirmed, OutDelivered, Some(r))]
    {
      if m.op !in rows { return NotFound; }
      var row := rows[m.op];
      if row.state.Confirmed? || row.state.Failed? {
        if m.report.RepConfirmed? && row.result != Some(m.report.receipt) { return SourceConflict; }
        return Handled;
      }
      if !m.query && row.cmd.epoch != from { return StaleEpoch; }
      match m.report
      case NotSeen =>
        if !m.query { return Invalid; }
        if row.outbox.OutDelivered? {
          FinishOp(m.op, Reconciling, None);
          return SourceConflict;
        }
        FailUnsent(m.op);
        return Handled;
      case RepUnknown =>
        FinishOp(m.op, Reconciling, None);
        return Handled;
      case RepDelivered =>
        SetOutbox(m.op, OutDelivered);
        FinishOp(m.op, Delivered, None);
        return Handled;
      case RepRejected =>
        FailUnsent(m.op);
        return Handled;
      case RepConfirmed(r) =>
        if !ReceiptMatches(row.cmd, me.node, r) { return Invalid; }
        if !effects { return RolledBack; }
        SetOutbox(m.op, OutDelivered);
        FinishOp(m.op, Confirmed, Some(r));
        return Handled;
    }

    // One row of the restart and expiry loops; the result tells whether its journal is asked.
    method Settle(op: Id) returns (written: bool)
      requires op in rows && Open(rows[op].state)
      modifies this`rows, this`revision
      ensures rows == old(rows)[op := Recovered(old(rows)[op])] && revision == old(revision) + 1
      ensures written <==> !old(rows)[op].outbox.Pending?
    {
      written := !rows[op].outbox.Pending?;
      if written { Doubt(op); } else { FailUnsent(op); }
    }

    // `recoverOperations`: every unsettled row, in whatever order the query yields them.
    method RecoverOperations()
      modifies this`rows, this`revision
      ensures rows == MapRows(old(rows), Recovered, OpenOps(old(rows)))
      ensures revision == old(revision) + |OpenOps(old(rows))|
    {
      var open, done: set<Id> := OpenOps(rows), {};
      assert rows == MapRows(rows, Recovered, {});
      while open - done != {}
        invariant done <= open == OpenOps(old(rows))
        invariant rows == MapRows(old(rows), Recovered, done) && revision == old(revision) + |done|
        decreases open - done
      {
        var op :| op in open - done;
        MapOne(old(rows), Recovered, done, op);
        var _ := Settle(op);
        done := done + {op};
      }
    }

    // The rows past their deadline, the earliest deadline first, no more than the limit.
    method SelectDue(now: int) returns (due: seq<Id>)
      ensures Selection(rows, now, due)
    {
      due := [];
      var rest := DueOps(rows, now);
      while rest != {} && |due| < EXPIRE_LIMIT
        invariant |due| <= EXPIRE_LIMIT && Picked(rows, now, due, rest)
        decreases |rest|
      {
        var op := Earliest(rows, rest);
        PickOne(rows, now, due, rest, op);
        due, rest := due + [op], rest - {op};
      }
      PickedAll(rows, now, due, rest);
    }

    // The loop of `expireOperations` over the selected rows; the result lists the journal
    // queries it sends, in order.
    method ExpireEach(due: seq<Id>) returns (queries: seq<Id>)
      requires forall i, j :: 0 <= i < j < |due| ==> due[i] != due[j]
      requires forall o :: o in due ==> o in rows && Open(rows[o].state)
      modifies this`rows, this`revision
      ensures rows == MapRows(old(rows), Recovered, Elements(due))
      ensures queries == ToQuery(old(rows), due) && revision == old(revision) + |due|
    {
      queries := [];
      assert rows == MapRows(rows, Recovered, {});
      for i := 0 to |due|
        invariant rows == MapRows(old(rows), Recovered, Elements(due[..i]))
        invariant queries == ToQuery(old(rows), due[..i]) && revision == old(revision) + i
      {
        var op := due[i];
        ElementsNext(due, i);
        MapOne(old(rows), Recovered, Elements(due[..i]), op);
        var written := Settle(op);
        if written { queries := queries + [op]; }
      }
      assert due[..|due|] == due;
    }

    // `expireOperations`.
    method ExpireOperations(now: int) returns (due: seq<Id>, queries: seq<Id>)
      modifies this`rows, this`revision
      ensures Selection(old(rows), now, due)
      ensures rows == MapRows(old(rows), Recovered, Elements(due))
      ensures queries == ToQuery(old(rows), due) && revision == old(revision) + |due|
    {
      due := SelectDue(now);
      queries := ExpireEach(due);
    }

    // `invalidateNodeOperations`.
    method InvalidateNodeOperations()
      modifies this`rows, this`revision
      ensures rows == MapRows(old(rows), Invalidated, OpenOps(old(rows)))
    {
      var open, done: set<Id> := OpenOps(rows), {};
      assert rows == MapRows(rows, Invalidated, {});
      while open - done != {}
        invariant done <= open == OpenOps(old(rows)) && rows == MapRows(old(rows), Invalidated, done)
        decreases open - done
      {
        var op :| op in open - done;
        MapOne(old(rows), Invalidated, done, op);
        if rows[op].outbox.Pending? { FailUnsent(op); } else { FinishOp(op, Reconciling, None); }
        done := done + {op};
      }
    }
  }

  function Elements(s: seq<Id>): set<Id> {
    set o | o in s
  }

  lemma ElementsNext(s: seq<Id>, n: nat)
    requires n < |s| && forall i, j :: 0 <= i < j < |s| ==> s[i] != s[j]
    ensures s[n] !in Elements(s[..n]) && Elements(s[..n + 1]) == Elements(s[..n]) + {s[n]}
    ensures s[..n + 1][..n] == s[..n]
  {
    assert s[..n + 1] == s[..n] + [s[n]];
  }

  // ----- the loops are the steps of the protocol, in any order -----

  function Recoveries(order: seq<Id>): seq<Step> {
    seq(|order|, i requires 0 <= i < |order| => Recover(order[i]))
  }

  // Recovery in the step system ends with the rows the loop computes, whatever the order.
  lemma {:induction false} RecoveryInAnyOrder(w: World, order: seq<Id>, w': World)
    requires (forall i, j :: 0 <= i < j < |order| ==> order[i] != order[j]) && (forall o :: o in order ==> o in w.g.rows)
    requires Runs(w, Recoveries(order), w') && w.g.pc.Booting? && (forall o :: o in order ==> Open(w.g.rows[o].state))
    ensures w'.g.rows == MapRows(w.g.rows, Recovered, Elements(order))
    ensures w'.g.pc.Booting? && w'.g.pc.todo == w.g.pc.todo - Elements(order)
    decreases |order|
  {
    if order == [] {
    } else {
      var w1, rest := Apply(w, Recover(order[0])), order[1..];
      assert Recoveries(order)[1..] == Recoveries(rest);
      RecoverOne(w, order[0]);
      RecoveryInAnyOrder(w1, rest, w');
      assert Elements(order) == {order[0]} + Elements(rest);
    }
  }

  lemma RecoverOne(w: World, op: Id)
    requires Enabled(w, Recover(op)) && Open(w.g.rows[op].state)
    ensures var g := Apply(w, Recover(op)).g;
      && g.rows == w.g.rows[op := Recovered(w.g.rows[op])]
      && g.pc.Booting? && g.pc.todo == w.g.pc.todo - {op}
  {
  }
}
