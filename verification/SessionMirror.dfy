// Reconciling a reported queue with the stored one, stated without the loop: exactly which
// lists are accepted, and exactly which rows result.
module SessionMirror {
  import opened Basics
  import opened SessionTables

  // ----- the shape of the stored queue -----

  // The first k rows are consumed, the others are not.
  predicate Split(rows: seq<Row>, k: nat) {
    && k <= |rows|
    && (forall i :: 0 <= i < k ==> !ActiveRow(rows[i]))
    && (forall i :: k <= i < |rows| ==> ActiveRow(rows[i]))
  }

  predicate DistinctIds(rows: seq<Row>) {
    forall i, j :: 0 <= i < j < |rows| ==> rows[i].id != rows[j].id
  }

  predicate DistinctOps(rows: seq<Row>) {
    forall i, j :: 0 <= i < j < |rows| ==> rows[i].op != rows[j].op
  }

  predicate Tidy(rows: seq<Row>, k: nat) {
    Split(rows, k) && DistinctIds(rows) && DistinctOps(rows)
  }

  // The unconsumed rows are the tail after the consumed ones.
  lemma {:induction false} ActiveIsTail(rows: seq<Row>, k: nat)
    requires Split(rows, k)
    ensures ActiveRows(rows) == rows[k..]
  {
    if k > 0 {
      assert rows[1..][k - 1..] == rows[k..];
      ActiveIsTail(rows[1..], k - 1);
    } else if rows != [] {
      ActiveIsTail(rows[1..], 0);
    }
  }

  // ----- the declarative description -----

  // A reported item may name this operation.
  predicate Mirrors(ops: map<Id, Op>, q: Item) {
    && q.op in ops && ops[q.op].kind.Queue? && !ops[q.op].state.Rejected?
    && ops[q.op].payload.Some? && ops[q.op].payload.value.text == q.text
  }

  // An item after the stored ones is new.
  predicate Fresh(rows: seq<Row>, q: Item) {
    q.id !in Ids(rows) && !OpQueued(rows, q.op)
  }

  predicate Same(r: Row, q: Item) {
    r.id == q.id && r.op == q.op && r.text == q.text
  }

  predicate DistinctItems(items: seq<Item>) {
    forall i, j :: 0 <= i < j < |items| ==> items[i].id != items[j].id
  }

  predicate DistinctItemOps(items: seq<Item>) {
    forall i, j :: 0 <= i < j < |items| ==> items[i].op != items[j].op
  }

  predicate Accepts(ops: map<Id, Op>, rows: seq<Row>, k: nat, items: seq<Item>)
    requires k <= |rows|
  {
    var stored := |rows| - k;
    && DistinctItems(items)
    && stored <= |items|
    && (forall i :: 0 <= i < |items| ==> Mirrors(ops, items[i]))
    && (forall i :: 0 <= i < stored ==> Same(rows[k..][i], items[i]))
    && (forall i :: stored <= i < |items| ==> Fresh(rows, items[i]))
    && DistinctItemOps(items[stored..])
  }

  function NewRow(ops: map<Id, Op>, q: Item): Row {
    Row(q.id, q.op, if q.op in ops && ops[q.op].payload.Some? then ops[q.op].payload.value.nextTurn else None,
        q.text, q.created, ItemMark(q))
  }

  // The stored unconsumed rows after the first n items of an accepted list.
  function Marked(ops: map<Id, Op>, q: seq<Row>, items: seq<Item>, n: nat): (r: seq<Row>)
    requires |q| <= |items| && n <= |items|
    ensures |r| == if n <= |q| then |q| else n
    ensures forall i :: 0 <= i < |q| ==> r[i] == if i < n then q[i].(state := ItemMark(items[i])) else q[i]
    ensures forall i :: |q| <= i < |r| ==> r[i] == NewRow(ops, items[i])
  {
    seq(if n <= |q| then |q| else n,
        i requires 0 <= i < (if n <= |q| then |q| else n) =>
          if i >= |q| then NewRow(ops, items[i]) else if i < n then q[i].(state := ItemMark(items[i])) else q[i])
  }

  function Mirrored(ops: map<Id, Op>, rows: seq<Row>, k: nat, items: seq<Item>, n: nat): (r: seq<Row>)
    requires k <= |rows| <= k + |items| && n <= |items|
  {
    rows[..k] + Marked(ops, rows[k..], items, n)
  }

  // ----- an accepted list goes through -----

  lemma FindIs(rows: seq<Row>, k: nat)
    requires k < |rows| && DistinctIds(rows)
    ensures Find(rows, rows[k].id) == k
  {
    assert Find(rows, rows[k].id) <= k;
  }

  lemma FindNone(rows: seq<Row>, id: Id)
    requires forall i :: 0 <= i < |rows| ==> rows[i].id != id
    ensures Find(rows, id) == |rows|
  {
  }

  lemma NotStored(rows: seq<Row>, q: Item, i: nat)
    requires Fresh(rows, q) && i < |rows|
    ensures rows[i].id != q.id && rows[i].op != q.op
  {
    assert Ids(rows)[i] == rows[i].id;
    assert rows[i] in rows;
  }

  lemma MirroredAt(ops: map<Id, Op>, rows: seq<Row>, k: nat, items: seq<Item>, n: nat, i: nat)
    requires k <= |rows| <= k + |items| && n <= |items| && i < |Mirrored(ops, rows, k, items, n)|
    ensures var r := Mirrored(ops, rows, k, items, n)[i];
      if i < |rows| then r == rows[i] || (k <= i && r == rows[i].(state := ItemMark(items[i - k])))
      else i - k < n && r == NewRow(ops, items[i - k])
  {
  }

  lemma MirroredDistinct(ops: map<Id, Op>, rows: seq<Row>, k: nat, items: seq<Item>, n: nat)
    requires DistinctIds(rows) && DistinctOps(rows) && k <= |rows| && n <= |items| && Accepts(ops, rows, k, items)
    ensures var r := Mirrored(ops, rows, k, items, n); DistinctIds(r) && DistinctOps(r)
  {
    var r := Mirrored(ops, rows, k, items, n);
    forall i, j | 0 <= i < j < |r|
      ensures r[i].id != r[j].id && r[i].op != r[j].op
    {
      MirroredAt(ops, rows, k, items, n, i);
      MirroredAt(ops, rows, k, items, n, j);
      if j >= |rows| {
        assert Fresh(rows, items[j - k]);
        if i < |rows| {
          NotStored(rows, items[j - k], i);
        } else {
          var added := items[|rows| - k..];
          assert added[i - |rows|] == items[i - k] && added[j - |rows|] == items[j - k];
        }
      }
    }
  }

  lemma StoredItem(ops: map<Id, Op>, rows: seq<Row>, k: nat, items: seq<Item>, n: nat)
    requires Tidy(rows, k) && n < |items| && Accepts(ops, rows, k, items) && n < |rows| - k
    ensures MirrorOne(ops, Mirrored(ops, rows, k, items, n), items[n]) == Some(Mirrored(ops, rows, k, items, n + 1))
  {
    var r, q := Mirrored(ops, rows, k, items, n), rows[k..];
    MirroredDistinct(ops, rows, k, items, n);
    assert Mirrors(ops, items[n]) && Same(q[n], items[n]);
    assert r[k + n] == q[n] == rows[k + n];
    FindIs(r, k + n);
    assert MirrorOne(ops, r, items[n]) == Some(r[k + n := r[k + n].(state := ItemMark(items[n]))]);
    assert Marked(ops, q, items, n + 1) == Marked(ops, q, items, n)[n := q[n].(state := ItemMark(items[n]))];
    assert r[k + n := r[k + n].(state := ItemMark(items[n]))] == Mirrored(ops, rows, k, items, n + 1);
  }

  lemma AddedItem(ops: map<Id, Op>, rows: seq<Row>, k: nat, items: seq<Item>, n: nat)
    requires Tidy(rows, k) && n < |items| && Accepts(ops, rows, k, items) && n >= |rows| - k
    ensures MirrorOne(ops, Mirrored(ops, rows, k, items, n), items[n]) == Some(Mirrored(ops, rows, k, items, n + 1))
  {
    var r, q := Mirrored(ops, rows, k, items, n), rows[k..];
    assert Mirrors(ops, items[n]) && Fresh(rows, items[n]);
    forall i | 0 <= i < |r|
      ensures r[i].id != items[n].id && r[i].op != items[n].op
    {
      MirroredAt(ops, rows, k, items, n, i);
      if i < |rows| {
        NotStored(rows, items[n], i);
      } else {
        var added := items[|rows| - k..];
        assert added[i - |rows|] == items[i - k] && added[n - |q|] == items[n];
      }
    }
    FindNone(r, items[n].id);
    assert MirrorOne(ops, r, items[n]) == Some(r + [NewRow(ops, items[n])]);
    assert Marked(ops, q, items, n + 1) == Marked(ops, q, items, n) + [NewRow(ops, items[n])];
    assert r + [NewRow(ops, items[n])] == Mirrored(ops, rows, k, items, n + 1);
  }

  lemma NotSeen(items: seq<Item>, n: nat)
    requires DistinctItems(items) && n < |items|
    ensures items[n].id !in ItemIds(items[..n])
  {
    forall i | 0 <= i < n
      ensures ItemIds(items[..n])[i] != items[n].id
    {
      assert items[i].id != items[n].id;
    }
  }

  lemma AcceptedItem(ops: map<Id, Op>, rows: seq<Row>, k: nat, items: seq<Item>, n: nat)
    requires Tidy(rows, k) && n < |items| && Accepts(ops, rows, k, items)
    ensures MirrorOne(ops, Mirrored(ops, rows, k, items, n), items[n]) == Some(Mirrored(ops, rows, k, items, n + 1))
    ensures items[n].id !in ItemIds(items[..n])
  {
    NotSeen(items, n);
    if n < |rows| - k { StoredItem(ops, rows, k, items, n); } else { AddedItem(ops, rows, k, items, n); }
  }

  lemma NothingMirrored(ops: map<Id, Op>, rows: seq<Row>, k: nat, items: seq<Item>)
    requires k <= |rows| <= k + |items|
    ensures Mirrored(ops, rows, k, items, 0) == rows
  {
    assert Marked(ops, rows[k..], items, 0) == rows[k..];
    assert rows[..k] + rows[k..] == rows;
  }

  lemma {:induction false} AcceptedItems(ops: map<Id, Op>, rows: seq<Row>, k: nat, items: seq<Item>, n: nat)
    requires Tidy(rows, k) && n <= |items| && Accepts(ops, rows, k, items)
    ensures MirrorItems(ops, rows, items, n) == Some(Mirrored(ops, rows, k, items, n))
  {
    if n == 0 {
      NothingMirrored(ops, rows, k, items);
    } else {
      var m := n - 1;
      AcceptedItems(ops, rows, k, items, m);
      AcceptedItem(ops, rows, k, items, m);
      assert MirrorItems(ops, rows, items, n) == MirrorOne(ops, Mirrored(ops, rows, k, items, m), items[m]);
    }
  }

  lemma MirroredActive(ops: map<Id, Op>, rows: seq<Row>, k: nat, items: seq<Item>)
    requires Split(rows, k) && Accepts(ops, rows, k, items)
    ensures var r := Mirrored(ops, rows, k, items, |items|);
      Split(r, k) && ActiveRows(r) == Marked(ops, rows[k..], items, |items|) && Ids(ActiveRows(r)) == ItemIds(items)
  {
    var r, q := Mirrored(ops, rows, k, items, |items|), rows[k..];
    assert r[k..] == Marked(ops, q, items, |items|);
    assert forall i :: k <= i < |r| ==> r[i] == Marked(ops, q, items, |items|)[i - k];
    ActiveIsTail(r, k);
    assert forall i :: 0 <= i < |q| ==> Same(q[i], items[i]);
  }

  lemma AcceptedIsMirrored(ops: map<Id, Op>, rows: seq<Row>, k: nat, items: seq<Item>)
    requires Tidy(rows, k) && Accepts(ops, rows, k, items)
    ensures QueueMirror(ops, rows, items) == Some(Mirrored(ops, rows, k, items, |items|))
  {
    var r := Mirrored(ops, rows, k, items, |items|);
    AcceptedItems(ops, rows, k, items, |items|);
    MirroredActive(ops, rows, k, items);
    assert ItemIds(items)[..|items|] == ItemIds(items);
    forall x | x in r && ActiveRow(x)
      ensures x.id in ItemIds(items)
    {
      MemberActive(r, x);
    }
  }

  lemma {:induction false} MemberActive(rows: seq<Row>, x: Row)
    requires x in rows && ActiveRow(x)
    ensures x.id in Ids(ActiveRows(rows))
  {
    if rows[0] == x {
      assert Ids(ActiveRows(rows))[0] == x.id;
    } else {
      MemberActive(rows[1..], x);
      var j :| 0 <= j < |ActiveRows(rows[1..])| && ActiveRows(rows[1..])[j].id == x.id;
      assert ActiveRows(rows)[|ActiveRows(rows)| - |ActiveRows(rows[1..])| + j].id == x.id;
      assert Ids(ActiveRows(rows))[|ActiveRows(rows)| - |ActiveRows(rows[1..])| + j] == x.id;
    }
  }

  // ----- a list that goes through was acceptable -----

  // What the first n items leave of the stored rows: the same rows in the same places, with
  // only marks changed, then unconsumed ones.
  predicate Grown(rows: seq<Row>, r: seq<Row>) {
    && |rows| <= |r|
    && (forall i :: 0 <= i < |rows| ==> rows[i].(state := Queued) == r[i].(state := Queued) && (ActiveRow(rows[i]) <==> ActiveRow(r[i])))
    && (forall i :: 0 <= i < |rows| && !ActiveRow(rows[i]) ==> r[i] == rows[i])
    && (forall i :: |rows| <= i < |r| ==> ActiveRow(r[i]))
  }

  predicate HoldsAt(ops: map<Id, Op>, rows: seq<Row>, r: seq<Row>, q: Item, i: int) {
    && 0 <= i < |r| && r[i].id == q.id && r[i].op == q.op && r[i].text == q.text && r[i].state == ItemMark(q)
    && (i >= |rows| ==> Mirrors(ops, q) && r[i] == NewRow(ops, q))
  }

  predicate Holds(ops: map<Id, Op>, rows: seq<Row>, r: seq<Row>, q: Item) {
    exists i :: 0 <= i < |r| && HoldsAt(ops, rows, r, q, i)
  }

  lemma OneItem(ops: map<Id, Op>, rows: seq<Row>, r: seq<Row>, q: Item)
    requires DistinctIds(r) && DistinctOps(r) && Grown(rows, r) && MirrorOne(ops, r, q).Some?
    ensures var r' := MirrorOne(ops, r, q).value; DistinctIds(r') && DistinctOps(r') && Grown(rows, r') && Holds(ops, rows, r', q) && Mirrors(ops, q)
    requires forall i :: |rows| <= i < |r| && r[i].id == q.id && Mirrors(ops, q) ==>
      r[i].nextTurn == ops[q.op].payload.value.nextTurn && r[i].created == q.created
  {
    var k, r' := Find(r, q.id), MirrorOne(ops, r, q).value;
    if k < |r| {
      assert r'[k].id == q.id;
      assert HoldsAt(ops, rows, r', q, k);
    } else {
      assert r'[|r|] == NewRow(ops, q);
      assert HoldsAt(ops, rows, r', q, |r|);
      forall i | 0 <= i < |r|
        ensures r'[i].id != q.id && r'[i].op != q.op
      {
        assert r[i] in r;
      }
    }
  }

  lemma OthersStay(ops: map<Id, Op>, rows: seq<Row>, r: seq<Row>, q: Item, p: Item)
    requires MirrorOne(ops, r, q).Some? && q.id != p.id && Holds(ops, rows, r, p)
    ensures Holds(ops, rows, MirrorOne(ops, r, q).value, p)
  {
    var i :| 0 <= i < |r| && HoldsAt(ops, rows, r, p, i);
    assert HoldsAt(ops, rows, MirrorOne(ops, r, q).value, p, i);
  }

  // Added rows carry the ids of the items seen so far.
  predicate AddedFrom(rows: seq<Row>, r: seq<Row>, items: seq<Item>) {
    forall i :: |rows| <= i < |r| ==> r[i].id in ItemIds(items)
  }

  lemma {:induction false} SeenItems(ops: map<Id, Op>, rows: seq<Row>, items: seq<Item>, n: nat)
    requires DistinctIds(rows) && DistinctOps(rows) && n <= |items| && MirrorItems(ops, rows, items, n).Some?
    ensures var r := MirrorItems(ops, rows, items, n).value;
      && DistinctIds(r) && DistinctOps(r) && Grown(rows, r) && AddedFrom(rows, r, items[..n]) && DistinctItems(items[..n])
      && (forall i :: 0 <= i < n ==> Holds(ops, rows, r, items[i]) && Mirrors(ops, items[i]))
  {
    if n > 0 {
      SeenItems(ops, rows, items, n - 1);
      var r, q := MirrorItems(ops, rows, items, n - 1).value, items[n - 1];
      assert forall i :: |rows| <= i < |r| ==> r[i].id != q.id;
      OneItem(ops, rows, r, q);
      var r' := MirrorItems(ops, rows, items, n).value;
      forall i | 0 <= i < n
        ensures Holds(ops, rows, r', items[i]) && Mirrors(ops, items[i])
      {
        if i < n - 1 {
          assert ItemIds(items[..n - 1])[i] == items[i].id;
          OthersStay(ops, rows, r, q, items[i]);
        }
      }
      forall i | |rows| <= i < |r'|
        ensures r'[i].id in ItemIds(items[..n])
      {
        if i < |r| {
          assert r[i].id in ItemIds(items[..n - 1]);
          var j :| 0 <= j < n - 1 && ItemIds(items[..n - 1])[j] == r[i].id;
          assert ItemIds(items[..n])[j] == r[i].id;
        } else {
          assert ItemIds(items[..n])[n - 1] == q.id;
        }
      }
      forall i, j | 0 <= i < j < n
        ensures items[..n][i].id != items[..n][j].id
      {
        if j < n - 1 {
          assert items[..n - 1][i].id != items[..n - 1][j].id;
        } else {
          assert ItemIds(items[..n - 1])[i] == items[i].id;
        }
      }
    }
  }

  lemma GrownSplit(rows: seq<Row>, k: nat, r: seq<Row>)
    requires Split(rows, k) && Grown(rows, r)
    ensures Split(r, k)
  {
  }

  // An item held somewhere is held in its own place.
  lemma HeldInPlace(ops: map<Id, Op>, rows: seq<Row>, k: nat, r: seq<Row>, items: seq<Item>, i: nat)
    requires Split(r, k) && |r| - k <= |items| && i < |items| && DistinctItems(items)
    requires forall j :: 0 <= j < |r| - k ==> r[k..][j].id == items[j].id
    requires Holds(ops, rows, r, items[i])
    ensures HoldsAt(ops, rows, r, items[i], k + i)
  {
    var h :| 0 <= h < |r| && HoldsAt(ops, rows, r, items[i], h);
    assert ActiveRow(r[h]) && h >= k;
    assert r[k..][h - k].id == items[h - k].id;
    assert h - k == i;
  }

  // Success of the whole reconciliation: the unconsumed rows list the reported items in order.
  lemma OrderIsReported(ops: map<Id, Op>, rows: seq<Row>, k: nat, items: seq<Item>)
    requires Tidy(rows, k) && QueueMirror(ops, rows, items).Some?
    ensures var r := QueueMirror(ops, rows, items).value;
      && Tidy(r, k) && Grown(rows, r) && DistinctItems(items) && |r| == k + |items|
      && (forall i :: 0 <= i < |items| ==> Mirrors(ops, items[i]) && HoldsAt(ops, rows, r, items[i], k + i))
  {
    var r, n := QueueMirror(ops, rows, items).value, |items|;
    SeenItems(ops, rows, items, n);
    assert items[..n] == items;
    GrownSplit(rows, k, r);
    ActiveIsTail(r, k);
    assert Ids(r[k..]) == ItemIds(items)[..|r| - k];
    forall j | 0 <= j < |r| - k
      ensures r[k..][j].id == items[j].id
    {
      assert Ids(r[k..])[j] == ItemIds(items)[..|r| - k][j];
    }
    forall i | 0 <= i < n
      ensures Mirrors(ops, items[i]) && HoldsAt(ops, rows, r, items[i], k + i)
    {
      HeldInPlace(ops, rows, k, r, items, i);
    }
    if n > 0 { assert HoldsAt(ops, rows, r, items[n - 1], k + (n - 1)); }
  }

  lemma AddedIsFresh(ops: map<Id, Op>, rows: seq<Row>, r: seq<Row>, q: Item, i: nat)
    requires DistinctIds(r) && DistinctOps(r) && Grown(rows, r) && |rows| <= i && HoldsAt(ops, rows, r, q, i)
    ensures Fresh(rows, q)
  {
    forall j | 0 <= j < |rows|
      ensures rows[j].id != q.id && rows[j].op != q.op
    {
      assert rows[j].(state := Queued) == r[j].(state := Queued);
    }
  }

  lemma AcceptedOnly(ops: map<Id, Op>, rows: seq<Row>, k: nat, items: seq<Item>)
    requires Tidy(rows, k) && QueueMirror(ops, rows, items).Some?
    ensures Accepts(ops, rows, k, items)
  {
    var r, q := QueueMirror(ops, rows, items).value, rows[k..];
    OrderIsReported(ops, rows, k, items);
    forall i | 0 <= i < |q|
      ensures Same(q[i], items[i])
    {
      assert HoldsAt(ops, rows, r, items[i], k + i);
      assert rows[k + i].(state := Queued) == r[k + i].(state := Queued);
    }
    forall i | |q| <= i < |items|
      ensures Fresh(rows, items[i])
    {
      assert HoldsAt(ops, rows, r, items[i], k + i);
      AddedIsFresh(ops, rows, r, items[i], k + i);
    }
    var added := items[|q|..];
    forall i, j | 0 <= i < j < |added|
      ensures added[i].op != added[j].op
    {
      assert HoldsAt(ops, rows, r, items[|q| + i], k + (|q| + i)) && HoldsAt(ops, rows, r, items[|q| + j], k + (|q| + j));
      assert r[k + (|q| + i)].op != r[k + (|q| + j)].op;
    }
  }

  // The whole of `queueMirror`, with no loop left in the description: it accepts exactly the
  // lists that begin with the stored unconsumed items, unchanged and in order, and continue
  // with items of admitted queue commands that never had one; and the outcome is the consumed
  // rows, the stored rows with their new marks, then the new rows in the reported order.
  lemma MirrorExact(ops: map<Id, Op>, rows: seq<Row>, k: nat, items: seq<Item>)
    requires Tidy(rows, k)
    ensures QueueMirror(ops, rows, items)
         == if Accepts(ops, rows, k, items) then Some(Mirrored(ops, rows, k, items, |items|)) else None
  {
    if Accepts(ops, rows, k, items) {
      AcceptedIsMirrored(ops, rows, k, items);
    } else if QueueMirror(ops, rows, items).Some? {
      AcceptedOnly(ops, rows, k, items);
    }
  }

  // Afterwards the unconsumed queue is the reported list and extends the previous one.
  lemma MirrorReports(ops: map<Id, Op>, rows: seq<Row>, k: nat, items: seq<Item>)
    requires Tidy(rows, k) && QueueMirror(ops, rows, items).Some?
    ensures var r := QueueMirror(ops, rows, items).value;
      && Tidy(r, k) && r[..k] == rows[..k]
      && Ids(ActiveRows(r)) == ItemIds(items) && Ids(ActiveRows(rows)) <= ItemIds(items)
      && (forall i :: 0 <= i < |items| ==> Same(ActiveRows(r)[i], items[i]) && ActiveRows(r)[i].state == ItemMark(items[i]))
  {
    MirrorExact(ops, rows, k, items);
    var r, q := QueueMirror(ops, rows, items).value, rows[k..];
    MirroredActive(ops, rows, k, items);
    MirroredDistinct(ops, rows, k, items, |items|);
    ActiveIsTail(rows, k);
    forall i | 0 <= i < |items|
      ensures Same(ActiveRows(r)[i], items[i]) && ActiveRows(r)[i].state == ItemMark(items[i])
      ensures i < |q| ==> Ids(q)[i] == ItemIds(items)[i]
    {
      if i < |q| { assert Same(q[i], items[i]); }
    }
    assert Ids(q) == ItemIds(items)[..|q|];
  }
}
