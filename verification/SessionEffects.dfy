// Which transactions on a session's rows are accepted, and what each of them writes, in the
// terms of the states, the rows and the reports themselves.
module SessionEffects {
  import opened Basics
  import opened SessionTables
  import opened SessionMirror
  import opened SessionSafety
  import opened SessionTheorems
  import opened PayloadGc
  import opened PayloadNotice
  import opened StaleRequests

  // ----- snapshots of the current turn -----

  predicate UnderWay(s: RunState) {
    s.Running? || s.WaitingApproval? || s.WaitingInput? || s.Cancelling?
  }

  predicate Outcome(s: RunState) {
    s.Completed? || s.Cancelled? || s.Failed?
  }

  // A resume of the current turn has been admitted and is undecided.
  predicate Resuming(t: Tables) {
    exists o :: o in t.ops && t.ops[o].kind.Resume? && t.ops[o].payload.Some? && t.ops[o].payload.value.expectedTurn == t.turn
                && (t.ops[o].state.Accepted? || t.ops[o].state.Delivered? || t.ops[o].state.Reconciling?)
  }

  // The states the current turn may report.
  predicate MayReport(t: Tables, next: RunState) {
    || next == t.state
    || (next.Closed? && !t.state.Closed?)
    || (UnderWay(t.state) && Outcome(next))
    || (t.state.Idle? && (next.Running? || next.Failed?))
    || (t.state.Running? && (next.WaitingApproval? || next.WaitingInput? || next.Cancelling?))
    || ((t.state.WaitingApproval? || t.state.WaitingInput?) && (next.Running? || next.Cancelling?))
    || (t.state.Closed? && next.Completed? && Resuming(t))
  }

  // ----- snapshots of another turn -----

  // The turn belongs to an admitted command that still has it to start.
  predicate Reserved(t: Tables, turn: Id) {
    && turn !in t.turns && turn in t.drawn && t.drawn[turn] in t.ops
    && var o := t.ops[t.drawn[turn]];
       && (o.kind.Send? || o.kind.Queue? || o.kind.Compact? || o.kind.Review?) && !o.state.Rejected?
       && o.payload.Some? && o.payload.value.nextTurn == Some(turn)
  }

  // The first unconsumed item is the one for this turn.
  predicate Next(t: Tables, turn: Id) {
    Spent(t.queue) < |t.queue| && t.queue[Spent(t.queue)].nextTurn == Some(turn)
  }

  // A new turn starts running once the last one has its outcome; one from the queue only after
  // a completed turn, in order, and when its enqueue is confirmed.
  predicate MayStart(t: Tables, u: Snapshot) {
    && Outcome(t.state) && u.state.Running? && Reserved(t, u.turn)
    && (t.ops[t.drawn[u.turn]].kind.Queue? ==>
          t.state.Completed? && t.ops[t.drawn[u.turn]].state.Confirmed? && Next(t, u.turn))
  }

  // The stored rows against which the report is read: the started item counts as consumed.
  function Standing(t: Tables, u: Snapshot): seq<Row> {
    if u.turn != t.turn && Next(t, u.turn) then t.queue[Spent(t.queue) := t.queue[Spent(t.queue)].(state := Consumed)] else t.queue
  }

  predicate CapabilitiesFit(t: Tables, u: Snapshot) {
    u.capabilityRevision > t.capabilityRevision || (u.capabilityRevision == t.capabilityRevision && u.capabilities == t.capabilities)
  }

  predicate Ends(s: RunState) {
    Outcome(s) || s.Closed? || s.Cancelling?
  }

  // ----- which snapshots are accepted -----

  lemma {:induction false} HeadOf(t: Tables, turn: Id)
    requires QueueOk(t)
    ensures HeadIs(t.queue, turn) <==> Next(t, turn)
  {
    ActiveIsTail(t.queue, Spent(t.queue));
  }

  lemma {:induction false} ReservedIs(t: Tables, turn: Id)
    requires DrawnOk(t)
    ensures Reservation(t.ops, turn).Some? && turn !in t.turns <==> Reserved(t, turn)
    ensures Reserved(t, turn) ==> Reservation(t.ops, turn) == Some(t.drawn[turn])
  {
    if Reservation(t.ops, turn).Some? { TheReservation(t, turn); }
    if Reserved(t, turn) { assert Reserves(t.ops[t.drawn[turn]], turn); }
  }

  lemma {:induction false} ResumingIs(t: Tables)
    ensures ResumeAuthorised(t.ops, t.turn) <==> Resuming(t)
  {
    if ResumeAuthorised(t.ops, t.turn) {
      var o :| o in t.ops && t.ops[o].kind.Resume? && Open(t.ops[o].state) && t.ops[o].payload.Some? && t.ops[o].payload.value.expectedTurn == t.turn;
      assert Resuming(t);
    }
    if Resuming(t) {
      var o :| o in t.ops && t.ops[o].kind.Resume? && t.ops[o].payload.Some? && t.ops[o].payload.value.expectedTurn == t.turn
                && (t.ops[o].state.Accepted? || t.ops[o].state.Delivered? || t.ops[o].state.Reconciling?);
      assert Open(t.ops[o].state);
    }
  }

  lemma {:induction false} TurnExactly(t: Tables, u: Snapshot)
    requires TurnsOk(t) && DrawnOk(t) && QueueOk(t)
    ensures TurnAllowed(t, u) <==> if u.turn == t.turn then MayReport(t, u.state) else MayStart(t, u)
  {
    if u.turn == t.turn {
      ResumingIs(t);
    } else {
      ReservedIs(t, u.turn);
      HeadOf(t, u.turn);
    }
  }

  lemma {:induction false} StandingIs(t: Tables, u: Snapshot)
    requires Inv(t) && !t.purged && TurnAllowed(t, u)
    ensures BeforeMirror(t, u) == Standing(t, u) && Tidy(Standing(t, u), Spent(Standing(t, u)))
  {
    BeforeMirrorOk(t, u);
    if u.turn != t.turn {
      TheReservation(t, u.turn);
      HeadOf(t, u.turn);
      ConsumesHead(t, u.turn);
      var k := Spent(t.queue);
      forall i | 0 <= i < |t.queue|
        ensures Consume(t.queue, u.turn)[i] == Standing(t, u)[i]
      {
        assert RowOk(t.ops, t.drawn, t.turns.Keys, t.queue[i]);
      }
    }
  }

  // The guards one by one.
  lemma {:induction false} SnapshotGuards(t: Tables, u: Snapshot, now: int)
    requires t.turn in t.turns
    ensures Apply(t, Update(u, now)).Some? <==>
      && !t.purged && |u.queue| <= QUEUE_LIMIT && CapabilitiesFit(t, u) && TurnAllowed(t, u)
      && QueueMirror(t.ops, BeforeMirror(t, u), u.queue).Some?
      && (Ends(u.state) ==> WithdrawAll(t.requests, t.turn, now).Some?)
  {
  }

  lemma {:induction false} WithdrawExactly(t: Tables, now: int)
    ensures WithdrawAll(t.requests, t.turn, now).Some? <==> !Stale(t)
  {
    if Stale(t) {
      var x :| x in t.requests && StaleOne(t.requests[x], t.turn);
      assert x in PendingIds(t.requests);
    } else {
      forall x | x in PendingIds(t.requests)
        ensures t.requests[x].turn == t.turn
      {
        assert !StaleOne(t.requests[x], t.turn);
      }
    }
  }

  lemma {:induction false} QueueExactly(t: Tables, u: Snapshot)
    requires Inv(t) && !t.purged && TurnAllowed(t, u)
    ensures QueueMirror(t.ops, BeforeMirror(t, u), u.queue).Some? <==> Accepts(t.ops, Standing(t, u), Spent(Standing(t, u)), u.queue)
    ensures QueueMirror(t.ops, BeforeMirror(t, u), u.queue).Some? ==>
      && |Standing(t, u)| - Spent(Standing(t, u)) <= |u.queue|
      && QueueMirror(t.ops, BeforeMirror(t, u), u.queue).value
         == Mirrored(t.ops, Standing(t, u), Spent(Standing(t, u)), u.queue, |u.queue|)
  {
    StandingIs(t, u);
    MirrorExact(t.ops, Standing(t, u), Spent(Standing(t, u)), u.queue);
  }

  // The whole of the acceptance, for every snapshot of every session: the turn may report the
  // state, or may start; the capabilities are not older; the queue extends the stored one; and
  // a snapshot that ends the turn finds no pending request of another one.
  lemma {:induction false} SnapshotExactly(t: Tables, u: Snapshot, now: int)
    requires Inv(t)
    ensures Apply(t, Update(u, now)).Some? <==>
      && !t.purged && |u.queue| <= QUEUE_LIMIT && CapabilitiesFit(t, u)
      && (if u.turn == t.turn then MayReport(t, u.state) else MayStart(t, u))
      && Accepts(t.ops, Standing(t, u), Spent(Standing(t, u)), u.queue)
      && (Ends(u.state) ==> !Stale(t))
  {
    SnapshotGuards(t, u, now);
    WithdrawExactly(t, now);
    TurnExactly(t, u);
    if !t.purged && TurnAllowed(t, u) { QueueExactly(t, u); }
  }

  // ----- what an accepted snapshot writes -----

  // The state of the turn: what is reported; but a closing session leaves a finished turn its
  // outcome, and an unfinished one failed.
  function WrittenState(t: Tables, u: Snapshot): RunState
    requires t.turn in t.turns
  {
    if !u.state.Closed? then u.state else if Outcome(t.turns[t.turn]) then t.turns[t.turn] else Failed
  }

  function EventsOf(t: Tables, u: Snapshot): nat {
    1 + (if u.capabilities != t.capabilities || u.capabilityRevision != t.capabilityRevision then 1 else 0)
    + (if u.queue != Items(t.queue[Spent(t.queue)..]) then 1 else 0)
    + (if Ends(u.state) then |PendingIds(t.requests)| else 0)
  }

  lemma {:induction false} WritesTurn(t: Tables, u: Snapshot, now: int)
    requires Inv(t) && Apply(t, Update(u, now)).Some?
    ensures var t' := Apply(t, Update(u, now)).value;
      && t'.turn == u.turn && t'.state == u.state && t'.turns == t.turns[u.turn := WrittenState(t, u)]
      && t'.capabilities == u.capabilities && t'.capabilityRevision == u.capabilityRevision
      && t'.ops == t.ops && t'.drawn == t.drawn && t'.managed == t.managed && t'.purged == t.purged && t'.earliest == t.earliest
  {
    SnapshotGuards(t, u, now);
    UpdateParts(t, u, now);
    WrittenStateIs(t, u);
  }

  lemma {:induction false} WritesLog(t: Tables, u: Snapshot, now: int)
    requires Inv(t) && Apply(t, Update(u, now)).Some?
    ensures Apply(t, Update(u, now)).value.last == t.last + EventsOf(t, u)
  {
    ActiveIsTail(t.queue, Spent(t.queue));
  }

  lemma {:induction false} WritesRequests(t: Tables, u: Snapshot, now: int)
    requires Inv(t) && Apply(t, Update(u, now)).Some?
    ensures var r := Apply(t, Update(u, now)).value.requests;
      && r.Keys == t.requests.Keys
      && forall x :: x in t.requests ==>
           r[x] == if Ends(u.state) && t.requests[x].state.Pending? && now < t.requests[x].expires
                   then t.requests[x].(state := Withdrawn) else t.requests[x]
  {
  }

  lemma {:induction false} ReportedQueue(t: Tables, u: Snapshot, now: int)
    requires t.turn in t.turns && Apply(t, Update(u, now)).Some?
    ensures !t.purged && TurnAllowed(t, u)
    ensures QueueMirror(t.ops, BeforeMirror(t, u), u.queue) == Some(Apply(t, Update(u, now)).value.queue)
  {
    UpdateMirrors(t, u, now);
  }

  lemma {:induction false} WritesQueue(t: Tables, u: Snapshot, now: int)
    requires Inv(t) && Apply(t, Update(u, now)).Some?
    ensures var k := Spent(Standing(t, u));
      && |Standing(t, u)| - k <= |u.queue|
      && Apply(t, Update(u, now)).value.queue == Mirrored(t.ops, Standing(t, u), k, u.queue, |u.queue|)
  {
    ReportedQueue(t, u, now);
    QueueExactly(t, u);
  }

  lemma {:induction false} SnapshotWrites(t: Tables, u: Snapshot, now: int)
    requires Inv(t) && Apply(t, Update(u, now)).Some?
    ensures var t' := Apply(t, Update(u, now)).value;
      && t'.turn == u.turn && t'.state == u.state && t'.turns == t.turns[u.turn := WrittenState(t, u)]
      && t'.capabilities == u.capabilities && t'.capabilityRevision == u.capabilityRevision
      && t'.last == t.last + EventsOf(t, u)
      && t'.ops == t.ops && t'.drawn == t.drawn && t'.managed == t.managed && t'.purged == t.purged && t'.earliest == t.earliest
    ensures var r := Apply(t, Update(u, now)).value.requests;
      && r.Keys == t.requests.Keys
      && forall x :: x in t.requests ==>
           r[x] == if Ends(u.state) && t.requests[x].state.Pending? && now < t.requests[x].expires
                   then t.requests[x].(state := Withdrawn) else t.requests[x]
    ensures var k := Spent(Standing(t, u));
      && |Standing(t, u)| - k <= |u.queue|
      && Apply(t, Update(u, now)).value.queue == Mirrored(t.ops, Standing(t, u), k, u.queue, |u.queue|)
  {
    WritesTurn(t, u, now);
    WritesLog(t, u, now);
    WritesRequests(t, u, now);
    WritesQueue(t, u, now);
  }

  lemma {:induction false} WrittenStateIs(t: Tables, u: Snapshot)
    requires TurnsOk(t) && (u.turn == t.turn || !u.state.Closed?)
    ensures TurnState(t, u) == WrittenState(t, u)
  {
  }

  // In particular: a report of the current turn with what is stored is accepted exactly if the
  // state is one the turn may report, and changes nothing but the state, the turn, the requests
  // it withdraws and the log.
  lemma {:induction false} CurrentSnapshot(t: Tables, state: RunState, now: int)
    requires Inv(t) && !t.purged && !Stuck(t) && !Stale(t)
    ensures var u := Snapshot(t.turn, state, t.capabilities, t.capabilityRevision, Items(t.queue[Spent(t.queue)..]));
      var r := Apply(t, Update(u, now));
      && (r.Some? <==> MayReport(t, state))
      && (r.Some? ==>
            && r.value.state == state && r.value.turn == t.turn && r.value.queue == t.queue && r.value.ops == t.ops
            && r.value.turns == t.turns[t.turn :=
                 if !state.Closed? then state else if Outcome(t.turns[t.turn]) then t.turns[t.turn] else Failed]
            && r.value.last == t.last + 1 + if Ends(state) then |PendingIds(t.requests)| else 0)
  {
    var u := Snapshot(t.turn, state, t.capabilities, t.capabilityRevision, Items(t.queue[Spent(t.queue)..]));
    assert u.queue == Held(t.queue);
    NothingStuck(t);
    HeldAccepts(t.ops, t.queue);
    HeldMarked(t.ops, t.queue);
    HeldShort(t);
    SnapshotExactly(t, u, now);
    if Apply(t, Update(u, now)).Some? { SnapshotWrites(t, u, now); }
  }
}
