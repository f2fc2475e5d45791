// What admitting, confirming and rejecting a command does to a session's rows, and what the
// smaller transactions do: which of them go through, and everything they write.
module SessionCommands {
  import opened Basics
  import opened SessionTables
  import opened SessionMirror
  import opened SessionSafety
  import opened SessionTheorems
  import opened PayloadGc
  import opened PayloadNotice
  import opened SessionEffects

  // The operation's state, and nothing else.
  function SetTo(t: Tables, op: Id, state: OpState): Tables
    requires op in t.ops
  {
    t.(ops := t.ops[op := Op(t.ops[op].kind, state, t.ops[op].payload, t.ops[op].request)])
  }

  predicate Undecided(t: Tables, op: Id) {
    op in t.ops && (t.ops[op].state.Accepted? || t.ops[op].state.Delivered? || t.ops[op].state.Reconciling?)
  }

  // ----- confirmation -----

  // A cancel of the turn that is running makes session and turn cancelling, with one event; of
  // any other turn, or repeated, it changes nothing more.
  lemma {:induction false} CancelConfirmed(t: Tables, op: Id, item: Option<Id>, now: int)
    requires Inv(t) && Undecided(t, op) && t.ops[op].kind.Cancel?
    ensures Apply(t, Confirm(op, item, now)) == Some(
      if t.ops[op].payload.Some? && t.ops[op].payload.value.expectedTurn == t.turn
         && (t.state.Idle? || t.state.Running? || t.state.WaitingApproval? || t.state.WaitingInput?)
      then SetTo(t, op, Confirmed).(state := Cancelling, turns := t.turns[t.turn := Cancelling], last := t.last + 1)
      else SetTo(t, op, Confirmed))
  {
  }

  // An answer resolves its request, with one event.
  lemma {:induction false} AnswerConfirmed(t: Tables, op: Id, item: Option<Id>, now: int)
    requires Inv(t) && Undecided(t, op) && t.ops[op].kind.Respond?
    ensures t.ops[op].request.Some? && t.ops[op].request.value in t.requests
    ensures var r, x := Apply(t, Confirm(op, item, now)), t.ops[op].request.value;
      && t.requests[x].state.Deciding? && t.requests[x].decision == Some(op)
      && r == Some(SetTo(t, op, Confirmed).(
           requests := t.requests[x := Request(t.requests[x].turn, t.requests[x].definition, Resolved, Some(op), t.requests[x].expires)],
           last := t.last + 1))
  {
    OpenAnswer(t, op);
  }

  // A control of any other kind is just confirmed.
  lemma {:induction false} OtherConfirmed(t: Tables, op: Id, item: Option<Id>, now: int)
    requires Inv(t) && Undecided(t, op) && !t.ops[op].kind.Cancel? && !t.ops[op].kind.Respond? && !t.ops[op].kind.Queue?
    ensures Apply(t, Confirm(op, item, now)) == Some(SetTo(t, op, Confirmed))
  {
  }

  // An unconsumed row carries this item.
  predicate Waits(rows: seq<Row>, item: Id) {
    exists i :: 0 <= i < |rows| && rows[i].id == item && !rows[i].state.Consumed?
  }

  predicate Known(rows: seq<Row>, item: Id, op: Id) {
    exists i :: 0 <= i < |rows| && (rows[i].id == item || rows[i].op == op)
  }

  lemma {:induction false} WaitsIs(t: Tables, item: Id)
    requires QueueOk(t)
    ensures Waits(t.queue, item) <==> Listed(t, item)
  {
    var k := Spent(t.queue);
    ActiveIsTail(t.queue, k);
    var ids := ItemIds(Items(t.queue[k..]));
    assert forall j :: 0 <= j < |ids| ==> ids[j] == t.queue[k + j].id;
    if Waits(t.queue, item) {
      var i :| 0 <= i < |t.queue| && t.queue[i].id == item && !t.queue[i].state.Consumed?;
      assert ids[i - k] == item;
    }
  }

  // What the receipt of an enqueue adds to the report of the queue.
  function WithItem(t: Tables, op: Id, item: Id, now: int): seq<Item>
    requires op in t.ops && t.ops[op].payload.Some?
  {
    Held(t.queue) + [Item(item, op, t.ops[op].payload.value.text, now, false)]
  }

  lemma {:induction false} ItemAccepted(t: Tables, op: Id, item: Id, now: int)
    requires Inv(t) && !t.purged && !Stuck(t) && Undecided(t, op) && t.ops[op].kind.Queue? && t.ops[op].payload.Some?
    requires !Waits(t.queue, item)
    ensures Accepts(t.ops, t.queue, Spent(t.queue), WithItem(t, op, item, now)) <==> !Known(t.queue, item, op)
  {
    var k, items := Spent(t.queue), WithItem(t, op, item, now);
    var n := |t.queue| - k;
    NothingStuck(t);
    HeldAccepts(t.ops, t.queue);
    assert forall i :: 0 <= i < n ==> items[i] == Held(t.queue)[i];
    assert items[n] == Item(item, op, t.ops[op].payload.value.text, now, false) && Mirrors(t.ops, items[n]);
    FreshIs(t.queue, items[n]);
    if !Known(t.queue, item, op) { ItemIsLast(t, op, item, now); }
  }

  lemma {:induction false} FreshIs(rows: seq<Row>, q: Item)
    ensures Fresh(rows, q) <==> !Known(rows, q.id, q.op)
  {
    assert forall i :: 0 <= i < |rows| ==> Ids(rows)[i] == rows[i].id;
    if Known(rows, q.id, q.op) {
      var i :| 0 <= i < |rows| && (rows[i].id == q.id || rows[i].op == q.op);
      assert Ids(rows)[i] in Ids(rows) && rows[i] in rows;
    }
  }

  lemma {:induction false} ItemIsLast(t: Tables, op: Id, item: Id, now: int)
    requires Inv(t) && !t.purged && !Stuck(t) && Undecided(t, op) && t.ops[op].kind.Queue? && t.ops[op].payload.Some?
    requires !Known(t.queue, item, op)
    ensures Accepts(t.ops, t.queue, Spent(t.queue), WithItem(t, op, item, now))
  {
    var k, items := Spent(t.queue), WithItem(t, op, item, now);
    var n := |t.queue| - k;
    NothingStuck(t);
    HeldAccepts(t.ops, t.queue);
    FreshIs(t.queue, items[n]);
    forall i, j | 0 <= i < j < |items|
      ensures items[i].id != items[j].id
    {
      if j < n { assert Held(t.queue)[i].id != Held(t.queue)[j].id; } else { assert items[i].id == t.queue[k + i].id; }
    }
    forall i | 0 <= i < n
      ensures Same(t.queue[k..][i], items[i]) && Mirrors(t.ops, items[i])
    {
      assert items[i] == Held(t.queue)[i];
    }
    OneMore(t.ops, t.queue, k, items);
  }

  lemma {:induction false} ItemAppended(t: Tables, op: Id, item: Id, now: int)
    requires Inv(t) && !t.purged && !Stuck(t) && Undecided(t, op) && t.ops[op].kind.Queue? && t.ops[op].payload.Some?
    requires Accepts(t.ops, t.queue, Spent(t.queue), WithItem(t, op, item, now))
    ensures var items := WithItem(t, op, item, now);
      Mirrored(t.ops, t.queue, Spent(t.queue), items, |items|)
      == t.queue + [Row(item, op, t.ops[op].payload.value.nextTurn, t.ops[op].payload.value.text, now, Queued)]
  {
    var k, items := Spent(t.queue), WithItem(t, op, item, now);
    var q := t.queue[k..];
    var added := Row(item, op, t.ops[op].payload.value.nextTurn, t.ops[op].payload.value.text, now, Queued);
    NothingStuck(t);
    forall i | 0 <= i < |q|
      ensures Marked(t.ops, q, items, |items|)[i] == q[i]
    {
      HeldItem(t.ops, t.queue, i);
      assert items[i] == Held(t.queue)[i];
    }
    assert Marked(t.ops, q, items, |items|) == q + [added];
    assert t.queue[..k] + (q + [added]) == t.queue + [added];
  }

  lemma {:induction false} EnqueuedIs(t: Tables, op: Id, item: Id, now: int)
    requires Inv(t) && !t.purged && !Stuck(t) && Undecided(t, op) && t.ops[op].kind.Queue? && t.ops[op].payload.Some?
    requires !Waits(t.queue, item)
    ensures Enqueued(t, op, item, t.ops[op].payload.value.text, now) ==
      if |t.queue| - Spent(t.queue) < QUEUE_LIMIT && !Known(t.queue, item, op)
      then Some(t.queue + [Row(item, op, t.ops[op].payload.value.nextTurn, t.ops[op].payload.value.text, now, Queued)]) else None
  {
    var k, items := Spent(t.queue), WithItem(t, op, item, now);
    WaitsIs(t, item);
    ActiveIsTail(t.queue, k);
    assert Items(ActiveRows(t.queue)) + [Item(item, op, t.ops[op].payload.value.text, now, false)] == items;
    MirrorExact(t.ops, t.queue, k, items);
    ItemAccepted(t, op, item, now);
    if !Known(t.queue, item, op) { ItemAppended(t, op, item, now); }
  }

  // The receipt of an enqueue names an item. One that waits already is left as it is; a new
  // one joins the end of the queue, with one event, if there is room, no waiting item is stuck
  // and neither the item nor the operation has a row; otherwise nothing is confirmed.
  lemma {:induction false} EnqueueConfirmed(t: Tables, op: Id, item: Option<Id>, now: int)
    requires Inv(t) && Undecided(t, op) && t.ops[op].kind.Queue?
    ensures Apply(t, Confirm(op, item, now)) ==
      if item.None? || t.ops[op].payload.None? then None
      else if Waits(t.queue, item.value) then Some(SetTo(t, op, Confirmed))
      else if |t.queue| - Spent(t.queue) < QUEUE_LIMIT && !Stuck(t) && !Known(t.queue, item.value, op) then
        Some(SetTo(t, op, Confirmed).(
          queue := t.queue + [Row(item.value, op, t.ops[op].payload.value.nextTurn, t.ops[op].payload.value.text, now, Queued)],
          last := t.last + 1))
      else None
  {
    assert !t.purged;
    if item.Some? && t.ops[op].payload.Some? {
      WaitsIs(t, item.value);
      if !Waits(t.queue, item.value) {
        if Stuck(t) { StuckEnqueue(t, op, item.value, t.ops[op].payload.value.text, now); } else { EnqueuedIs(t, op, item.value, now); }
      }
    }
  }

  // ----- rejection -----

  // A create rejected before its start leaves session and turn failed, with one event. A
  // rejected answer gives its request back: pending again, or expired. Anything else is just
  // rejected.
  lemma {:induction false} FailWrites(t: Tables, op: Id, now: int)
    requires Inv(t) && Undecided(t, op)
    ensures t.ops[op].kind.Respond? ==> t.ops[op].request.Some? && t.ops[op].request.value in t.requests
    ensures Apply(t, Fail(op, now)) == Some(
      if t.ops[op].kind.Create? && t.state.Idle? then
        SetTo(t, op, OpState.Rejected).(state := Failed, turns := t.turns[t.turn := Failed], last := t.last + 1)
      else if t.ops[op].kind.Respond? then
        var x := t.ops[op].request.value;
        SetTo(t, op, OpState.Rejected).(
          requests := t.requests[x := Request(t.requests[x].turn, t.requests[x].definition,
                                              if now < t.requests[x].expires then Pending else Expired, None, t.requests[x].expires)],
          last := t.last + 1)
      else SetTo(t, op, OpState.Rejected))
  {
    if t.ops[op].kind.Respond? { OpenAnswer(t, op); }
  }

  // A settled operation is neither confirmed nor rejected again.
  lemma {:induction false} SettledRefused(t: Tables, op: Id, item: Option<Id>, now: int)
    requires Inv(t) && !Undecided(t, op)
    ensures Apply(t, Confirm(op, item, now)).None? && Apply(t, Fail(op, now)).None?
  {
  }

  // ----- admission -----

  // No control of the session is undecided, and the command is for the current turn.
  predicate Unopposed(t: Tables, op: Id, payload: Payload) {
    && op !in t.ops && payload.expectedTurn == t.turn
    && forall o :: o in t.ops && Undecided(t, o) ==> t.ops[o].kind.Queue?
  }

  lemma {:induction false} NotBusyIs(t: Tables)
    ensures !Busy(t.ops) <==> forall o :: o in t.ops && Undecided(t, o) ==> t.ops[o].kind.Queue?
  {
    if Busy(t.ops) {
      var o :| o in t.ops && Open(t.ops[o].state) && !t.ops[o].kind.Queue?;
      assert Undecided(t, o);
    }
  }

  // A managed session that still runs, with its history.
  predicate InUse(t: Tables) {
    t.managed && !t.purged && !t.state.Closed?
  }

  predicate NewTurn(t: Tables, payload: Payload) {
    payload.nextTurn.Some? && payload.nextTurn.value !in t.drawn && payload.nextTurn.value !in t.turns
  }

  // What is stored of an admitted command.
  function Entered(t: Tables, op: Id, kind: Kind, payload: Payload, answers: Option<Id>): Tables {
    t.(ops := t.ops[op := Op(kind, Accepted, Some(payload), answers)],
       drawn := if payload.nextTurn.Some? then t.drawn[payload.nextTurn.value := op] else t.drawn)
  }

  // A message that starts a turn, a compaction and a review wait for the end of the turn.
  lemma {:induction false} StartAdmitted(t: Tables, op: Id, kind: Kind, payload: Payload, now: int)
    requires Inv(t) && (kind.Send? || kind.Compact? || kind.Review?) && NewTurn(t, payload)
    ensures Apply(t, Admit(op, kind, payload, None, now)) ==
      if Unopposed(t, op, payload) && InUse(t) && Outcome(t.state) then Some(Entered(t, op, kind, payload, None)) else None
  {
    NotBusyIs(t);
  }

  // A message is queued during a turn, while there is room.
  lemma {:induction false} QueueAdmitted(t: Tables, op: Id, payload: Payload, now: int)
    requires Inv(t) && NewTurn(t, payload)
    ensures Apply(t, Admit(op, Queue, payload, None, now)) ==
      if Unopposed(t, op, payload) && InUse(t) && (t.state.Running? || t.state.WaitingApproval? || t.state.WaitingInput?)
         && |t.queue| - Spent(t.queue) < QUEUE_LIMIT
      then Some(Entered(t, op, Queue, payload, None)) else None
  {
    NotBusyIs(t);
    ActiveIsTail(t.queue, Spent(t.queue));
  }

  // A turn that has started and is not over can be cancelled, also again.
  lemma {:induction false} CancelAdmitted(t: Tables, op: Id, payload: Payload, now: int)
    requires Inv(t) && payload.nextTurn.None?
    ensures Apply(t, Admit(op, Cancel, payload, None, now)) ==
      if Unopposed(t, op, payload) && InUse(t) && UnderWay(t.state) then Some(Entered(t, op, Cancel, payload, None)) else None
  {
    NotBusyIs(t);
  }

  // A pending request of the current turn can be answered until it expires, unless the turn is
  // being cancelled; the answer takes it over, with one event.
  lemma {:induction false} AnswerAdmitted(t: Tables, op: Id, payload: Payload, x: Id, now: int)
    requires Inv(t) && payload.nextTurn.None?
    ensures Apply(t, Admit(op, Respond, payload, Some(x), now)) ==
      if Unopposed(t, op, payload) && InUse(t) && !t.state.Cancelling?
         && x in t.requests && t.requests[x].turn == t.turn && t.requests[x].state.Pending? && now < t.requests[x].expires
      then Some(Entered(t, op, Respond, payload, Some(x)).(
             requests := t.requests[x := Request(t.turn, t.requests[x].definition, Deciding, Some(op), t.requests[x].expires)],
             last := t.last + 1))
      else None
  {
    NotBusyIs(t);
    if x in t.requests { assert RequestOk(t.ops, x, t.requests[x]); }
  }

  // A closed session can be resumed; other native controls have their own gates.
  lemma {:induction false} NativeAdmitted(t: Tables, op: Id, payload: Payload, idle: bool, closedToo: bool, now: int)
    requires Inv(t) && payload.nextTurn.None?
    ensures Apply(t, Admit(op, Resume, payload, None, now)) ==
      if Unopposed(t, op, payload) && t.managed && !t.purged && t.state.Closed? then Some(Entered(t, op, Resume, payload, None)) else None
    ensures Apply(t, Admit(op, OtherNative(idle, closedToo), payload, None, now)) ==
      if Unopposed(t, op, payload) && t.managed && !t.purged && (t.state.Closed? ==> closedToo)
         && (idle ==> Outcome(t.state) || t.state.Closed?)
      then Some(Entered(t, op, OtherNative(idle, closedToo), payload, None)) else None
  {
    NotBusyIs(t);
  }

  // ----- the smaller transactions -----

  // A report of delivery or of doubt changes the operation's state only.
  lemma {:induction false} ReportWrites(t: Tables, op: Id, state: OpState)
    requires Inv(t)
    ensures Apply(t, Report(op, state)) ==
      if Undecided(t, op) && (state.Delivered? || state.Reconciling?) then Some(SetTo(t, op, state)) else None
  {
  }

  // A question can be asked while its turn may be answered, and asked again unchanged.
  lemma {:induction false} AskWrites(t: Tables, x: Id, turn: Id, definition: Id, created: int, expires: int, now: int)
    requires Inv(t)
    ensures Apply(t, Ask(x, turn, definition, created, expires, now)) ==
      if t.purged || turn != t.turn || !(t.state.Idle? || t.state.Running? || t.state.WaitingApproval? || t.state.WaitingInput?)
         || expires <= created || expires <= now || created > now + 60 then None
      else if x !in t.requests then
        Some(t.(requests := t.requests[x := Request(turn, definition, Pending, None, expires)], last := t.last + 1))
      else if t.requests[x].definition == definition then Some(t.(last := t.last + 1))
      else None
  {
  }

  // A request of any turn of the session can be withdrawn; one being decided is left alone.
  lemma {:induction false} WithdrawWrites(t: Tables, x: Id, turn: Id, now: int)
    requires Inv(t)
    ensures Apply(t, Withdraw(x, turn, now)) ==
      if t.purged || x !in t.requests || t.requests[x].turn != turn || turn !in t.turns then None
      else if t.requests[x].state.Pending? && now < t.requests[x].expires then
        Some(t.(requests := t.requests[x := t.requests[x].(state := Withdrawn)], last := t.last + 1))
      else Some(t.(last := t.last + 1))
  {
  }

  // The sweep expires what is past its time.
  lemma {:induction false} ExpireWrites(t: Tables, x: Id, now: int)
    requires Inv(t)
    ensures Apply(t, ExpireRequest(x, now)) ==
      if x in t.requests && t.requests[x].state.Pending? && t.requests[x].expires <= now
      then Some(t.(requests := t.requests[x := t.requests[x].(state := Expired)], last := t.last + 1)) else None
  {
  }

  // Retention purges an idle session with nothing undecided and nothing waiting; a deletion, a
  // closed one with nothing undecided, and it takes the commands' payloads too.
  lemma {:induction false} PurgeWrites(t: Tables)
    requires Inv(t)
    ensures Apply(t, PurgeOld) ==
      if !t.purged && (Outcome(t.state) || t.state.Closed?) && (forall o :: o in t.ops ==> !Undecided(t, o)) && Spent(t.queue) == |t.queue|
      then Some(t.(purged := true, queue := [], requests := map[], earliest := t.last + 1)) else None
    ensures Apply(t, DeleteHistory).Some? <==> t.state.Closed? && forall o :: o in t.ops ==> !Undecided(t, o)
    ensures Apply(t, DeleteHistory).Some? ==>
      var t' := Apply(t, DeleteHistory).value;
      && t' == t.(purged := true, queue := [], requests := map[], earliest := t.last + 1, ops := t'.ops)
      && t'.ops.Keys == t.ops.Keys && forall o :: o in t.ops ==> t'.ops[o] == t.ops[o].(payload := None)
  {
    ActiveIsTail(t.queue, Spent(t.queue));
    if AnyOpen(t.ops) {
      var o :| o in t.ops && Open(t.ops[o].state);
      assert Undecided(t, o);
    }
  }

  // The daily clearing takes the payload of every settled operation without a waiting item,
  // except of a confirmed command whose turn has not started; enqueues are not excepted.
  lemma {:induction false} ClearWrites(t: Tables, op: Id)
    requires Inv(t)
    ensures Apply(t, ClearPayload(op)) ==
      if op in t.ops && t.ops[op].payload.Some? && !Undecided(t, op)
         && (forall i :: 0 <= i < |t.queue| && t.queue[i].op == op ==> t.queue[i].state.Consumed?)
         && !((t.ops[op].kind.Send? || t.ops[op].kind.Compact? || t.ops[op].kind.Review?) && t.ops[op].state.Confirmed?
              && t.ops[op].payload.value.nextTurn.Some? && t.ops[op].payload.value.nextTurn.value !in t.turns)
      then Some(t.(ops := t.ops[op := t.ops[op].(payload := None)])) else None
  {
    if op in t.ops && exists r :: r in t.queue && r.op == op && ActiveRow(r) {
      var r :| r in t.queue && r.op == op && ActiveRow(r);
      var i :| 0 <= i < |t.queue| && t.queue[i] == r;
    }
  }
}
