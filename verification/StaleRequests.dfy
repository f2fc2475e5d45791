// Interaction requests that outlive their turn: which transactions leave one behind, and that
// without those no snapshot is ever refused for a request's sake.
module StaleRequests {
  import opened Basics
  import opened SessionTables
  import opened SessionMirror
  import opened SessionSafety
  import opened SessionTheorems

  predicate StaleIn(requests: map<Id, Request>, turn: Id) {
    exists x :: x in requests && StaleOne(requests[x], turn)
  }

  predicate StaleOne(r: Request, turn: Id) {
    r.state.Pending? && r.turn != turn
  }

  // A pending request of a turn that is not the current one.
  predicate Stale(t: Tables) {
    StaleIn(t.requests, t.turn)
  }

  // A rejected answer returns the request of an earlier turn to pending, before it expires.
  predicate Returns(t: Tables, s: Step) {
    && s.Fail? && s.op in t.ops && t.ops[s.op].kind.Respond? && t.ops[s.op].request.Some?
    && t.ops[s.op].request.value in t.requests
    && t.requests[t.ops[s.op].request.value].turn != t.turn && s.now < t.requests[t.ops[s.op].request.value].expires
  }

  // The next turn starts over a request still stored as pending. The end of the turn has
  // withdrawn the live ones, so it is one that had expired unswept, or one that was returned
  // to pending since.
  predicate LeavesBehind(t: Tables, s: Step) {
    s.Update? && s.u.turn != t.turn && PendingIds(t.requests) != {}
  }

  // Pending afterwards means pending before, of the same turn, or newly asked in this one.
  predicate Follows(a: map<Id, Request>, b: map<Id, Request>, turn: Id) {
    forall x :: x in b && b[x].state.Pending? ==> (x in a && a[x].state.Pending? && b[x].turn == a[x].turn) || b[x].turn == turn
  }

  lemma {:induction false} FollowsFresh(a: map<Id, Request>, b: map<Id, Request>, turn: Id)
    requires !StaleIn(a, turn) && Follows(a, b, turn)
    ensures !StaleIn(b, turn)
  {
    forall x | x in b
      ensures !StaleOne(b[x], turn)
    {
      assert x in a ==> !StaleOne(a[x], turn);
    }
  }

  lemma {:induction false} FailStale(t: Tables, op: Id, now: int)
    requires Inv(t) && !Stale(t) && op in t.ops && Open(t.ops[op].state)
    ensures Stale(DoFail(t, op, now)) <==> Returns(t, Fail(op, now))
  {
    var o, t' := t.ops[op], DoFail(t, op, now);
    if o.kind.Respond? {
      OpenAnswer(t, op);
      var x := o.request.value;
      assert x in t'.requests && t'.requests == t.requests[x := t'.requests[x]];
      if Returns(t, Fail(op, now)) {
        assert StaleOne(t'.requests[x], t'.turn);
      } else {
        FollowsFresh(t.requests, t'.requests, t.turn);
      }
    }
  }

  lemma {:induction false} UpdateStale(t: Tables, u: Snapshot, now: int)
    requires Inv(t) && !Stale(t) && SessionUpdate(t, u, now).Some?
    ensures Stale(SessionUpdate(t, u, now).value) <==> LeavesBehind(t, Update(u, now))
  {
    var t' := SessionUpdate(t, u, now).value;
    UpdateMirrors(t, u, now);
    if u.turn == t.turn {
      FollowsFresh(t.requests, t'.requests, t.turn);
    } else {
      assert t'.requests == t.requests && t'.turn == u.turn;
      if x :| x in PendingIds(t.requests) {
        assert !StaleOne(t.requests[x], t.turn);
        assert StaleOne(t'.requests[x], t'.turn);
      } else {
        forall x | x in t'.requests
          ensures !StaleOne(t'.requests[x], t'.turn)
        {
          assert x !in PendingIds(t.requests);
        }
      }
    }
  }

  lemma {:induction false} ConfirmStale(t: Tables, op: Id, item: Option<Id>, now: int)
    requires Inv(t) && !Stale(t) && op in t.ops && DoConfirm(t, op, item, now).Some?
    ensures !Stale(DoConfirm(t, op, item, now).value)
  {
    var t' := DoConfirm(t, op, item, now).value;
    if t.ops[op].kind.Queue? { ConfirmRest(t, op, item, now); }
    assert t'.turn == t.turn;
    FollowsFresh(t.requests, t'.requests, t.turn);
  }

  lemma {:induction false} RequestStale(t: Tables, s: Step)
    requires Inv(t) && !Stale(t) && Apply(t, s).Some? && !s.Fail? && !s.Update? && !s.Confirm?
    ensures !Stale(Apply(t, s).value)
  {
    var t' := Apply(t, s).value;
    assert t'.turn == t.turn;
    FollowsFresh(t.requests, t'.requests, t.turn);
  }

  // Exactly which transactions leave a request of another turn pending where there was none.
  lemma {:induction false} StaleStep(t: Tables, s: Step)
    requires Inv(t) && !Stale(t) && Apply(t, s).Some?
    ensures Stale(Apply(t, s).value) <==> Returns(t, s) || LeavesBehind(t, s)
  {
    match s
    case Fail(op, now) => FailStale(t, op, now);
    case Update(u, now) => UpdateStale(t, u, now);
    case Confirm(op, item, now) => ConfirmStale(t, op, item, now);
    case _ => RequestStale(t, s);
  }

  // No transaction of the run that goes through is one of the two.
  ghost predicate LeavesNone(t: Tables, steps: seq<Step>)
    requires Inv(t)
    decreases |steps|
  {
    steps == [] ||
    (&& (Apply(t, steps[0]).Some? ==> !Returns(t, steps[0]) && !LeavesBehind(t, steps[0]))
     && (AfterKeeps(t, steps[0]); LeavesNone(After(t, steps[0]), steps[1..])))
  }

  // All that a snapshot has to meet besides.
  ghost predicate InOrder(t: Tables, u: Snapshot)
    requires t.turn in t.turns
  {
    && !t.purged && |u.queue| <= QUEUE_LIMIT && TurnAllowed(t, u) && CapabilitiesAllowed(t, u)
    && QueueMirror(t.ops, BeforeMirror(t, u), u.queue).Some?
  }

  predicate EndsTurn(u: Snapshot) {
    !Active(u.state) || u.state.Cancelling?
  }

  // A snapshot in order is refused exactly when it ends the turn over a stale request.
  lemma {:induction false} RefusedExactly(t: Tables, u: Snapshot, now: int)
    requires Inv(t) && InOrder(t, u)
    ensures Apply(t, Update(u, now)).None? <==> EndsTurn(u) && Stale(t)
  {
    StaleRequestBlocks(t, u, now);
    if Stale(t) {
      var x :| x in t.requests && StaleOne(t.requests[x], t.turn);
      assert x in PendingIds(t.requests);
    } else {
      forall x | x in PendingIds(t.requests)
        ensures t.requests[x].turn == t.turn
      {
        assert !StaleOne(t.requests[x], t.turn);
      }
    }
  }

  // Over any run: as long as neither of the two happens, every snapshot in order goes through.
  lemma {:induction false} NeverRefused(t: Tables, steps: seq<Step>, u: Snapshot, now: int)
    requires Inv(t) && !Stale(t) && LeavesNone(t, steps)
    ensures !Stale(Run(t, steps))
    ensures InOrder(Run(t, steps), u) ==> Apply(Run(t, steps), Update(u, now)).Some?
    decreases |steps|
  {
    if steps == [] {
      if InOrder(t, u) { RefusedExactly(t, u, now); }
    } else {
      AfterKeeps(t, steps[0]);
      if Apply(t, steps[0]).Some? { StaleStep(t, steps[0]); }
      NeverRefused(After(t, steps[0]), steps[1..], u, now);
    }
  }

  // A new session has no requests at all.
  lemma {:induction false} CreatedFresh(turn: Id, op: Id, capabilities: Id, revision: nat, payload: Payload)
    ensures !Stale(Created(turn, op, capabilities, revision, payload))
  {
  }
}
