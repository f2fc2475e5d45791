// Which transaction leaves an item in the queue that no report may list and none may omit.
module StuckQueue {
  import opened Basics
  import opened SessionTables
  import opened SessionMirror
  import opened SessionSafety
  import opened SessionTheorems
  import opened PayloadGc

  predicate NoneStuck(ops: map<Id, Op>, rows: seq<Row>) {
    forall i :: 0 <= i < |rows| ==> !StuckRow(ops, rows[i])
  }

  // What a report lists is not rejected, so neither is anything left unconsumed by it.
  lemma {:induction false} MirrorNotStuck(ops: map<Id, Op>, rows: seq<Row>, k: nat, items: seq<Item>)
    requires Tidy(rows, k) && QueueMirror(ops, rows, items).Some?
    ensures NoneStuck(ops, QueueMirror(ops, rows, items).value)
  {
    var r := QueueMirror(ops, rows, items).value;
    OrderIsReported(ops, rows, k, items);
    forall i | 0 <= i < |r|
      ensures !StuckRow(ops, r[i])
    {
      if i >= k { assert Mirrors(ops, items[i - k]) && HoldsAt(ops, rows, r, items[i - k], k + (i - k)); }
    }
  }

  lemma {:induction false} UpdateNotStuck(t: Tables, u: Snapshot, now: int)
    requires Inv(t) && !t.purged && SessionUpdate(t, u, now).Some?
    ensures !Stuck(SessionUpdate(t, u, now).value)
  {
    var rows := BeforeMirror(t, u);
    UpdateParts(t, u, now);
    UpdateMirrors(t, u, now);
    BeforeMirrorOk(t, u);
    MirrorNotStuck(t.ops, rows, Spent(rows), u.queue);
  }

  lemma {:induction false} ConfirmNotStuck(t: Tables, op: Id, item: Option<Id>, now: int)
    requires Inv(t) && !Stuck(t) && op in t.ops && DoConfirm(t, op, item, now).Some?
    ensures !Stuck(DoConfirm(t, op, item, now).value)
  {
    var t' := DoConfirm(t, op, item, now).value;
    ConfirmParts(t, op, item, now);
    ConfirmRest(t, op, item, now);
    if t.ops[op].kind.Queue? && !Listed(t, item.value) {
      MirrorNotStuck(t.ops, t.queue, Spent(t.queue), Items(ActiveRows(t.queue)) + [Item(item.value, op, t.ops[op].payload.value.text, now, false)]);
    }
    assert NoneStuck(t.ops, t'.queue);
    forall i | 0 <= i < |t'.queue|
      ensures !StuckRow(t'.ops, t'.queue[i])
    {
      assert !StuckRow(t.ops, t'.queue[i]);
    }
  }

  // A failed enqueue whose item is already in the queue.
  predicate FailsListed(t: Tables, s: Step) {
    s.Fail? && s.op in t.ops && t.ops[s.op].kind.Queue? && !NoneActive(t.queue, s.op)
  }

  lemma {:induction false} FailStuck(t: Tables, op: Id, now: int)
    requires Inv(t) && !Stuck(t) && op in t.ops && Open(t.ops[op].state)
    ensures Stuck(DoFail(t, op, now)) <==> FailsListed(t, Fail(op, now))
  {
    var t' := DoFail(t, op, now);
    FailParts(t, op, now);
    if FailsListed(t, Fail(op, now)) {
      var i :| 0 <= i < |t.queue| && t.queue[i].op == op && ActiveRow(t.queue[i]);
      assert StuckRow(t'.ops, t'.queue[i]);
    } else {
      forall i | 0 <= i < |t'.queue|
        ensures !StuckRow(t'.ops, t'.queue[i])
      {
        assert !StuckRow(t.ops, t.queue[i]);
        if !t.purged { assert RowOk(t.ops, t.drawn, t.turns.Keys, t.queue[i]); }
      }
    }
  }

  lemma {:induction false} OtherNotStuck(t: Tables, s: Step)
    requires Inv(t) && !Stuck(t) && Apply(t, s).Some? && !s.Update? && !s.Confirm? && !s.Fail?
    ensures !Stuck(Apply(t, s).value)
  {
    var t' := Apply(t, s).value;
    if !t'.purged {
      StepPurged(t, s);
      QueueUntouched(t, s);
      StepOps(t, s);
      forall i | 0 <= i < |t'.queue|
        ensures !StuckRow(t'.ops, t'.queue[i])
      {
        assert !StuckRow(t.ops, t.queue[i]);
        assert RowOk(t.ops, t.drawn, t.turns.Keys, t.queue[i]);
      }
    }
  }

  // Exactly one kind of transaction makes a queue stuck: the failure of an open enqueue that
  // has an unconsumed item. A report over such an item is refused, so it never does.
  lemma {:induction false} StuckStep(t: Tables, s: Step)
    requires Inv(t) && !Stuck(t) && Apply(t, s).Some?
    ensures Stuck(Apply(t, s).value) <==> FailsListed(t, s)
  {
    match s
    case Update(u, now) => UpdateNotStuck(t, u, now);
    case Confirm(op, item, now) => ConfirmNotStuck(t, op, item, now);
    case Fail(op, now) => FailStuck(t, op, now);
    case _ => OtherNotStuck(t, s);
  }

  // From then on no report is accepted, whatever happens, up to and beyond a deletion of the
  // history.
  lemma {:induction false} StuckForGood(t: Tables, steps: seq<Step>, u: Snapshot, now: int)
    requires Inv(t) && Blocked(t)
    ensures Blocked(Run(t, steps)) && Apply(Run(t, steps), Update(u, now)).None?
    decreases |steps|
  {
    if steps == [] {
      if !t.purged { StuckUpdate(t, u, now); }
    } else {
      AfterKeeps(t, steps[0]);
      if Apply(t, steps[0]).Some? { BlockedStays(t, steps[0]); }
      StuckForGood(After(t, steps[0]), steps[1..], u, now);
    }
  }
}
