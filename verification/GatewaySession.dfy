// The Gateway's handlers for one session's rows, as they work on the tables: each is a
// transaction that either goes through whole or leaves everything as it was.
module GatewaySession {
  import opened Basics
  import opened SessionTables
  import opened SessionSafety
  import opened SessionTheorems

  // The tables after a snapshot, given the rows and requests it leaves.
  function Written(t: Tables, u: Snapshot, queue: seq<Row>, requests: map<Id, Request>): Tables
    requires t.turn in t.turns
  {
    t.(turn := u.turn, state := u.state, capabilities := u.capabilities, capabilityRevision := u.capabilityRevision,
       turns := t.turns[u.turn := TurnState(t, u)], queue := queue, requests := requests, last := t.last + SnapshotEvents(t, u))
  }

  lemma UpdateIs(t: Tables, u: Snapshot, now: int)
    requires t.turn in t.turns && !t.purged && |u.queue| <= QUEUE_LIMIT
    ensures Apply(t, Update(u, now)) == SessionUpdate(t, u, now)
    ensures After(t, Update(u, now)) == if SessionUpdate(t, u, now).Some? then SessionUpdate(t, u, now).value else t
  {
  }

  lemma AdmitIs(t: Tables, s: Step)
    requires t.turn in t.turns && s.Admit?
    ensures Apply(t, s).Some? == Admissible(t, s) && After(t, s) == if Admissible(t, s) then DoAdmit(t, s) else t
  {
  }

  lemma SettleIs(t: Tables, op: Id, item: Option<Id>, now: int)
    requires t.turn in t.turns && op in t.ops && Open(t.ops[op].state)
    ensures Apply(t, Confirm(op, item, now)) == DoConfirm(t, op, item, now)
    ensures After(t, Confirm(op, item, now)) == if DoConfirm(t, op, item, now).Some? then DoConfirm(t, op, item, now).value else t
    ensures After(t, Fail(op, now)) == DoFail(t, op, now)
  {
  }

  class Store {
    var turn: Id
    var state: RunState
    var capabilities: Id
    var capabilityRevision: nat
    var managed: bool
    var purged: bool
    var turns: map<Id, RunState>
    ghost var drawn: map<Id, Id>
    var ops: map<Id, Op>
    var queue: seq<Row>
    var requests: map<Id, Request>
    var last: nat
    var earliest: nat

    ghost function View(): Tables
      reads this
    {
      Tables(turn, state, capabilities, capabilityRevision, managed, purged, turns, drawn, ops, queue, requests, last, earliest)
    }

    ghost predicate Valid()
      reads this
    {
      Inv(View())
    }

    // A session made by a create command.
    constructor (turn: Id, op: Id, capabilities: Id, revision: nat, payload: Payload)
      requires payload.nextTurn.None?
      ensures Valid() && View() == Created(turn, op, capabilities, revision, payload)
    {
      this.turn, state, this.capabilities, capabilityRevision, managed, purged := turn, Idle, capabilities, revision, true, false;
      turns, drawn := map[turn := Idle], map[turn := op];
      ops := map[op := Op(Create, Accepted, Some(payload), None)];
      queue, requests, last, earliest := [], map[], 0, 1;
      new;
      CreatedOk(turn, op, capabilities, revision, payload);
    }

    // ----- the queue -----

    // `queueMirror` on a copy of the rows; None rolls the transaction back.
    method QueueMirror(rows: seq<Row>, items: seq<Item>) returns (r: Option<seq<Row>>)
      ensures r == SessionTables.QueueMirror(ops, rows, items)
    {
      var current, seen, ids := rows, {}, [];
      for i := 0 to |items|
        invariant ids == ItemIds(items[..i]) && seen == set x | x in ids
        invariant MirrorItems(ops, rows, items, i) == Some(current)
      {
        var q := items[i];
        assert MirrorItems(ops, rows, items, i + 1) == if q.id in ids then None else MirrorOne(ops, current, q);
        if q.id in seen {
          MirrorStops(rows, items, i + 1);
          return None;
        }
        seen, ids := seen + {q.id}, ids + [q.id];
        var step := MirrorItem(current, q);
        if step.None? {
          MirrorStops(rows, items, i + 1);
          return None;
        }
        current := step.value;
      }
      assert items[..|items|] == items;
      var missing := exists x :: x in current && ActiveRow(x) && x.id !in ids;
      if missing { return None; }
      var ordered := Ids(ActiveRows(current));
      for i := 0 to |ordered|
        invariant i <= |ids| && ordered[..i] == ids[..i]
      {
        if i >= |ids| || ordered[i] != ids[i] {
          assert |ordered| <= |ids| ==> ordered != ids[..|ordered|] by {
            if |ordered| <= |ids| { assert ids[..|ordered|][i] == ids[i]; }
          }
          return None;
        }
      }
      return Some(current);
    }

    lemma {:induction false} MirrorStops(rows: seq<Row>, items: seq<Item>, n: nat)
      requires n <= |items| && MirrorItems(ops, rows, items, n).None?
      ensures MirrorItems(ops, rows, items, |items|).None?
      decreases |items| - n
    {
      if n < |items| { MirrorStops(rows, items, n + 1); }
    }

    // One pass of that loop: the lookups and the insert or update.
    method MirrorItem(rows: seq<Row>, q: Item) returns (r: Option<seq<Row>>)
      ensures r == MirrorOne(ops, rows, q)
    {
      if q.op !in ops || !ops[q.op].kind.Queue? { return None; }
      var op := ops[q.op];
      if op.state.Rejected? || op.payload.None? || op.payload.value.text != q.text { return None; }
      var k := Find(rows, q.id);
      if k < |rows| {
        if rows[k].op != q.op || rows[k].text != q.text || rows[k].state.Consumed? { return None; }
        return Some(rows[k := rows[k].(state := ItemMark(q))]);
      }
      if OpQueued(rows, q.op) { return None; }
      return Some(rows + [Row(q.id, q.op, op.payload.value.nextTurn, q.text, q.created, ItemMark(q))]);
    }

    // ----- requests -----

    // The loop that withdraws every pending request; one of another turn fails it.
    method WithdrawAll(ofTurn: Id, now: int) returns (r: Option<map<Id, Request>>)
      ensures r == SessionTables.WithdrawAll(requests, ofTurn, now)
    {
      var pending := PendingIds(requests);
      var todo, current := pending, requests;
      while todo != {}
        invariant todo <= pending && current.Keys == requests.Keys
        invariant forall x :: x in pending && x !in todo ==> requests[x].turn == ofTurn
        invariant forall x :: x in requests ==>
          current[x] == if x !in todo && LivePending(requests[x], now) then requests[x].(state := Withdrawn) else requests[x]
        decreases |todo|
      {
        var x :| x in todo;
        todo := todo - {x};
        if requests[x].turn != ofTurn {
          assert x in PendingIds(requests);
          return None;
        }
        if LivePending(requests[x], now) { current := current[x := current[x].(state := Withdrawn)]; }
      }
      assert current == Withdrawing(requests, now);
      return Some(current);
    }

    // ----- session snapshots -----

    // Whether a new turn may start: the row the reservation query finds decides.
    method MayStart(u: Snapshot) returns (ok: bool)
      requires Valid() && u.turn != turn
      ensures ok <==> TurnAllowed(View(), u)
    {
      if Active(state) || state.Closed? || !u.state.Running? { return false; }
      if !(exists o :: o in ops && Reserves(ops[o], u.turn)) { return false; }
      var o :| o in ops && Reserves(ops[o], u.turn);
      TheOnlyOne(u.turn, o);
      if ops[o].kind.Queue? {
        if !state.Completed? || !ops[o].state.Confirmed? { return false; }
        if !HeadIs(queue, u.turn) { return false; }
      }
      return u.turn !in turns;
    }

    lemma TheOnlyOne(next: Id, o: Id)
      requires Valid() && o in ops && Reserves(ops[o], next)
      ensures Reservation(ops, next) == Some(o)
    {
      TheReservation(View(), next);
      ReservedBy(View(), next, o);
    }

    // The checks of `sessionUpdate`, with the rows and requests it will write.
    method Prepare(u: Snapshot, now: int) returns (r: Option<(seq<Row>, map<Id, Request>)>)
      requires Valid()
      ensures r.Some? == SessionTables.SessionUpdate(View(), u, now).Some?
      ensures r.Some? ==> SessionTables.SessionUpdate(View(), u, now).value == Written(View(), u, r.value.0, r.value.1)
    {
      var rows := queue;
      if u.turn != turn {
        var may := MayStart(u);
        if !may { return None; }
        rows := Consume(queue, u.turn);
      } else if !ValidTransition(state, u.state) && !(state.Closed? && u.state.Completed? && ResumeAuthorised(ops, u.turn)) {
        return None;
      }
      if u.capabilityRevision < capabilityRevision || (u.capabilityRevision == capabilityRevision && u.capabilities != capabilities) {
        return None;
      }
      var mirrored := QueueMirror(rows, u.queue);
      if mirrored.None? { return None; }
      var left := Some(requests);
      if !Active(u.state) || u.state.Cancelling? { left := WithdrawAll(turn, now); }
      if left.None? { return None; }
      return Some((mirrored.value, left.value));
    }

    // The events a snapshot appends.
    method Events(u: Snapshot) returns (n: nat)
      ensures n == SnapshotEvents(View(), u)
    {
      n := 1;
      if capabilities != u.capabilities || capabilityRevision != u.capabilityRevision { n := n + 1; }
      if Items(ActiveRows(queue)) != u.queue { n := n + 1; }
      if !Active(u.state) || u.state.Cancelling? { n := n + |PendingIds(requests)|; }
    }

    // The state written to the turn.
    method TurnStateOf(u: Snapshot) returns (s: RunState)
      requires turn in turns
      ensures s == TurnState(View(), u)
    {
      if !u.state.Closed? { return u.state; }
      if state.Closed? { return if u.turn in turns then turns[u.turn] else Failed; }
      return if Active(state) then Failed else state;
    }

    // The writes of `sessionUpdate`.
    method Write(u: Snapshot, rows: seq<Row>, left: map<Id, Request>)
      requires turn in turns
      modifies this
      ensures View() == Written(old(View()), u, rows, left)
    {
      var events := Events(u);
      var turnState := TurnStateOf(u);
      last := last + events;
      turns := turns[u.turn := turnState];
      turn, state, capabilities, capabilityRevision := u.turn, u.state, u.capabilities, u.capabilityRevision;
      queue, requests := rows, left;
    }

    // `sessionUpdate`.
    method SessionUpdate(u: Snapshot, now: int) returns (ok: bool)
      requires Valid() && !purged && |u.queue| <= QUEUE_LIMIT
      modifies this
      ensures Valid() && ok == SessionTables.Apply(old(View()), Update(u, now)).Some?
      ensures View() == After(old(View()), Update(u, now))
    {
      ghost var t := View();
      var r := Prepare(u, now);
      UpdateIs(t, u, now);
      AfterKeeps(t, Update(u, now));
      if r.Some? { Write(u, r.value.0, r.value.1); }
      return r.Some?;
    }

    lemma AskIs(t: Tables, x: Id, ofTurn: Id, definition: Id, created: int, expires: int, now: int)
      requires t.turn in t.turns
      ensures var ok := !t.purged && ofTurn == t.turn && Active(t.state) && !t.state.Cancelling?
          && expires > created && expires > now && created <= now + 60 && (x in t.requests ==> t.requests[x].definition == definition);
        After(t, Ask(x, ofTurn, definition, created, expires, now)) == (
          if !ok then t
          else t.(requests := if x in t.requests then t.requests else t.requests[x := Request(ofTurn, definition, Pending, None, expires)],
                  last := t.last + 1))
      ensures SessionTables.Apply(t, Ask(x, ofTurn, definition, created, expires, now)).Some? <==>
        !t.purged && ofTurn == t.turn && Active(t.state) && !t.state.Cancelling?
        && expires > created && expires > now && created <= now + 60 && (x in t.requests ==> t.requests[x].definition == definition)
    {
    }

    // The checks and the writes of `requestCreate`.
    method AddRequest(x: Id, ofTurn: Id, definition: Id, created: int, expires: int, now: int) returns (ok: bool)
      requires turn in turns
      modifies this
      ensures ok == SessionTables.Apply(old(View()), Ask(x, ofTurn, definition, created, expires, now)).Some?
      ensures View() == After(old(View()), Ask(x, ofTurn, definition, created, expires, now))
    {
      AskIs(View(), x, ofTurn, definition, created, expires, now);
      if purged || ofTurn != turn || !Active(state) || state.Cancelling? { return false; }
      if expires <= created || expires <= now || created > now + 60 { return false; }
      if x in requests {
        if requests[x].definition != definition { return false; }
      } else {
        requests := requests[x := Request(ofTurn, definition, Pending, None, expires)];
      }
      last := last + 1;
      return true;
    }

    // `requestCreate`, apart from the questions themselves.
    method RequestCreate(x: Id, ofTurn: Id, definition: Id, created: int, expires: int, now: int) returns (ok: bool)
      requires Valid()
      modifies this
      ensures Valid() && ok == SessionTables.Apply(old(View()), Ask(x, ofTurn, definition, created, expires, now)).Some?
      ensures View() == After(old(View()), Ask(x, ofTurn, definition, created, expires, now))
    {
      AfterKeeps(View(), Ask(x, ofTurn, definition, created, expires, now));
      ok := AddRequest(x, ofTurn, definition, created, expires, now);
    }

    lemma WithdrawIs(t: Tables, x: Id, ofTurn: Id, now: int)
      requires t.turn in t.turns
      ensures var ok := !t.purged && x in t.requests && t.requests[x].turn == ofTurn && ofTurn in t.turns;
        && SessionTables.Apply(t, Withdraw(x, ofTurn, now)).Some? == ok
        && After(t, Withdraw(x, ofTurn, now)) == (
             if !ok then t
             else t.(requests := if LivePending(t.requests[x], now) then t.requests[x := t.requests[x].(state := Withdrawn)] else t.requests,
                     last := t.last + 1))
    {
    }

    // The checks and the writes of `requestCancel`.
    method CancelRequest(x: Id, ofTurn: Id, now: int) returns (ok: bool)
      requires turn in turns
      modifies this
      ensures ok == SessionTables.Apply(old(View()), Withdraw(x, ofTurn, now)).Some?
      ensures View() == After(old(View()), Withdraw(x, ofTurn, now))
    {
      WithdrawIs(View(), x, ofTurn, now);
      if purged || x !in requests || requests[x].turn != ofTurn || ofTurn !in turns { return false; }
      if LivePending(requests[x], now) { requests := requests[x := requests[x].(state := Withdrawn)]; }
      last := last + 1;
      return true;
    }

    // `requestCancel` for one request.
    method RequestCancel(x: Id, ofTurn: Id, now: int) returns (ok: bool)
      requires Valid()
      modifies this
      ensures Valid() && ok == SessionTables.Apply(old(View()), Withdraw(x, ofTurn, now)).Some?
      ensures View() == After(old(View()), Withdraw(x, ofTurn, now))
    {
      AfterKeeps(View(), Withdraw(x, ofTurn, now));
      ok := CancelRequest(x, ofTurn, now);
    }

    // ----- commands and their receipts -----

    method SetOp(op: Id, next: OpState)
      requires op in ops
      modifies this`ops
      ensures View() == SessionTables.SetOp(old(View()), op, next)
    {
      ops := ops[op := ops[op].(state := next)];
    }

    // Admission of a command for this session: its gates, its reservation, and the request
    // an answer takes over.
    method Admit(op: Id, kind: Kind, payload: Payload, answers: Option<Id>, now: int) returns (ok: bool)
      requires Valid() && Fresh(payload)
      modifies this
      ensures Valid() && ok == SessionTables.Apply(old(View()), SessionTables.Admit(op, kind, payload, answers, now)).Some?
      ensures View() == After(old(View()), SessionTables.Admit(op, kind, payload, answers, now))
    {
      ghost var s := SessionTables.Admit(op, kind, payload, answers, now);
      AdmitIs(View(), s);
      AfterKeeps(View(), s);
      ok := Gate(op, kind, payload, answers, now);
      if ok { Enter(op, kind, payload, answers, now); }
    }

    method Enter(op: Id, kind: Kind, payload: Payload, answers: Option<Id>, ghost now: int)
      requires kind.Respond? <==> answers.Some? && answers.value in requests
      modifies this
      ensures View() == DoAdmit(old(View()), SessionTables.Admit(op, kind, payload, answers, now))
    {
      ops := ops[op := Op(kind, Accepted, Some(payload), answers)];
      if payload.nextTurn.Some? { drawn := drawn[payload.nextTurn.value := op]; }
      if answers.Some? && answers.value in requests {
        requests := requests[answers.value := requests[answers.value].(state := Deciding, decision := Some(op))];
        last := last + 1;
      }
    }

    // A reserved turn id is new.
    ghost predicate Fresh(payload: Payload)
      reads this
    {
      payload.nextTurn.Some? ==> payload.nextTurn.value !in drawn && payload.nextTurn.value !in turns
    }

    method Gate(op: Id, kind: Kind, payload: Payload, answers: Option<Id>, now: int) returns (ok: bool)
      requires Fresh(payload)
      ensures ok == Admissible(View(), SessionTables.Admit(op, kind, payload, answers, now))
    {
      if op in ops || payload.expectedTurn != turn || Busy(ops) { return false; }
      if StartsTurn(kind) != payload.nextTurn.Some? || kind.Respond? != answers.Some? { return false; }
      match kind
      case Create => return false;
      case Send => ok := !Active(state) && !purged && managed && !state.Closed?;
      case Queue =>
        ok := Active(state) && !state.Cancelling? && !state.Idle? && |ActiveRows(queue)| < QUEUE_LIMIT && !purged && managed;
      case Cancel => ok := Active(state) && !state.Idle? && !purged && managed;
      case Compact => ok := !Active(state) && !purged && managed && !state.Closed?;
      case Respond =>
        if answers.value !in requests { return false; }
        var r := requests[answers.value];
        ok := r.turn == turn && r.decision.None? && LivePending(r, now) && !state.Cancelling? && !purged && managed && !state.Closed?;
      case Review => ok := !Active(state) && !purged && managed && !state.Closed?;
      case Resume => ok := state.Closed? && managed && !purged;
      case OtherNative(idle, closedToo) => ok := !purged && managed && (state.Closed? ==> closedToo) && (idle ==> !Active(state));
    }

    // What `acknowledge` writes together with a confirmation.
    method Confirm(op: Id, item: Option<Id>, now: int) returns (ok: bool)
      requires Valid() && op in ops && Open(ops[op].state)
      modifies this
      ensures Valid() && ok == SessionTables.Apply(old(View()), SessionTables.Confirm(op, item, now)).Some?
      ensures View() == After(old(View()), SessionTables.Confirm(op, item, now))
    {
      SettleIs(View(), op, item, now);
      AfterKeeps(View(), SessionTables.Confirm(op, item, now));
      ok := ConfirmEffects(op, item, now);
      if ok { SetOp(op, Confirmed); }
    }

    method ConfirmEffects(op: Id, item: Option<Id>, now: int) returns (ok: bool)
      requires op in ops
      modifies this
      ensures ok == DoConfirm(old(View()), op, item, now).Some? && ops == old(ops)
      ensures ok ==> SessionTables.SetOp(View(), op, Confirmed) == DoConfirm(old(View()), op, item, now).value
      ensures !ok ==> View() == old(View())
    {
      var o := ops[op];
      match o.kind {
        case Queue =>
          if item.None? || o.payload.None? { return false; }
          ok := EnqueueConfirmed(op, item.value, o.payload.value.text, now);
          return;
        case Respond =>
          if o.request.None? || o.request.value !in requests || requests[o.request.value].decision != Some(op) { return false; }
          requests := requests[o.request.value := requests[o.request.value].(state := Resolved)];
          last := last + 1;
        case Cancel =>
          if o.payload.Some? && turn == o.payload.value.expectedTurn && Active(state) && !state.Cancelling? {
            state, turns, last := Cancelling, turns[turn := Cancelling], last + 1;
          }
        case _ =>
      }
      return true;
    }

    // The queue after a confirmed enqueue: an item no snapshot has listed yet joins its end.
    method RowsWith(op: Id, item: Id, text: Id, now: int) returns (r: Option<seq<Row>>)
      ensures r == Enqueued(View(), op, item, text, now)
    {
      var active := Items(ActiveRows(queue));
      if item in ItemIds(active) { return Some(queue); }
      if |active| + 1 > QUEUE_LIMIT { return None; }
      r := QueueMirror(queue, active + [Item(item, op, text, now, false)]);
    }

    method EnqueueConfirmed(op: Id, item: Id, text: Id, now: int) returns (ok: bool)
      modifies this
      ensures ok == Enqueued(old(View()), op, item, text, now).Some?
      ensures View() == if ok
        then old(View()).(queue := Enqueued(old(View()), op, item, text, now).value, last := old(last) + B(!Listed(old(View()), item)))
        else old(View())
    {
      var listed := item in ItemIds(Items(ActiveRows(queue)));
      var rows := RowsWith(op, item, text, now);
      if rows.None? { return false; }
      queue := rows.value;
      if !listed { last := last + 1; }
      return true;
    }

    // `failUnsent` with `rejectedEffects`.
    method Reject(op: Id, now: int)
      requires Valid() && op in ops && Open(ops[op].state)
      modifies this
      ensures Valid() && View() == After(old(View()), SessionTables.Fail(op, now))
    {
      SettleIs(View(), op, None, now);
      AfterKeeps(View(), SessionTables.Fail(op, now));
      RejectedEffects(op, now);
    }

    method RejectedEffects(op: Id, now: int)
      requires op in ops
      modifies this
      ensures View() == DoFail(old(View()), op, now)
    {
      SetOp(op, Rejected);
      var o := ops[op];
      if o.kind.Create? && state.Idle? {
        turns, state, last := turns[turn := Failed], Failed, last + 1;
        return;
      }
      if o.kind.Respond? && o.request.Some? && o.request.value in requests {
        var r := requests[o.request.value];
        if r.decision == Some(op) && r.state.Deciding? {
          requests := requests[o.request.value := r.(state := if now < r.expires then Pending else Expired, decision := None)];
          last := last + 1;
        }
      }
    }
  }
}
