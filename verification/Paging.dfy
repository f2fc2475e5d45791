// Reading a stored stream in pages: the loops of the page readers, what they return, and
// what any sequence of pages adds up to.
module Paging {
  import opened Basics

  const PAGE_BYTES := 1048576

  // A stored row: its sequence (or revision, or ordinal), the size of its encoding, its content.
  datatype Stored<T> = Stored(at: nat, size: nat, data: T)

  datatype Page<T> = Page(items: seq<Stored<T>>) | CursorExpired

  // ----- the query -----

  // WHERE at > after AND at <= until ORDER BY at, over a table in that order.
  function Between<T>(table: seq<Stored<T>>, after: int, until: int): seq<Stored<T>> {
    if |table| == 0 then []
    else (if after < table[0].at <= until then [table[0]] else []) + Between(table[1..], after, until)
  }

  function Limited<T>(rows: seq<Stored<T>>, limit: nat): seq<Stored<T>> {
    if |rows| <= limit then rows else rows[..limit]
  }

  function Query<T>(table: seq<Stored<T>>, after: nat, until: nat, limit: nat): seq<Stored<T>> {
    Limited(Between(table, after, until), limit)
  }

  // ----- one page -----

  function Bytes<T>(rows: seq<Stored<T>>): nat {
    if |rows| == 0 then 0 else Bytes(rows[..|rows| - 1]) + rows[|rows| - 1].size
  }

  // One row always fits, however large.
  predicate Fits<T>(rows: seq<Stored<T>>) {
    |rows| <= 1 || Bytes(rows) <= PAGE_BYTES
  }

  predicate Consecutive<T>(rows: seq<Stored<T>>, after: nat) {
    forall i :: 0 <= i < |rows| ==> rows[i].at == after + 1 + i
  }

  // The reader gets to row n, and it is not the one it expects.
  predicate HoleAt<T>(rows: seq<Stored<T>>, after: nat, n: nat)
    requires n < |rows|
  {
    Consecutive(rows[..n], after) && Fits(rows[..n]) && rows[n].at != after + 1 + n
  }

  ghost predicate Missing<T>(rows: seq<Stored<T>>, after: nat, until: nat) {
    (rows == [] && after < until) || exists n :: 0 <= n < |rows| && HoleAt(rows, after, n)
  }

  // What a page must be: as many of the selected rows as fit, with no hole; or a refusal
  // exactly when a hole comes first.
  ghost predicate IsPage<T>(rows: seq<Stored<T>>, after: nat, until: nat, r: Page<T>) {
    match r
    case CursorExpired => Missing(rows, after, until)
    case Page(items) =>
      && items <= rows && Consecutive(items, after) && Fits(items)
      && (|items| < |rows| ==> rows[|items|].at == after + 1 + |items| && !Fits(rows[..|items| + 1]))
      && (items == [] ==> after >= until)
  }

  lemma {:induction false} BytesGrow<T>(rows: seq<Stored<T>>, n: nat)
    requires n <= |rows|
    ensures Bytes(rows[..n]) <= Bytes(rows)
  {
    if n < |rows| {
      BytesGrow(rows[..|rows| - 1], n);
      assert rows[..|rows| - 1][..n] == rows[..n];
    } else {
      assert rows[..n] == rows;
    }
  }

  lemma FitsPrefix<T>(rows: seq<Stored<T>>, n: nat)
    requires n <= |rows| && Fits(rows)
    ensures Fits(rows[..n])
  {
    BytesGrow(rows, n);
  }

  // There is one page only: the description leaves no choice.
  lemma PageUnique<T>(rows: seq<Stored<T>>, after: nat, until: nat, a: Page<T>, b: Page<T>)
    requires IsPage(rows, after, until, a) && IsPage(rows, after, until, b)
    ensures a == b
  {
    if a.Page? && b.Page? {
      PagesAgree(rows, after, until, a.items, b.items);
      PagesAgree(rows, after, until, b.items, a.items);
    } else if a.Page? {
      NoHole(rows, after, until, a.items);
    } else if b.Page? {
      NoHole(rows, after, until, b.items);
    }
  }

  lemma PagesAgree<T>(rows: seq<Stored<T>>, after: nat, until: nat, a: seq<Stored<T>>, b: seq<Stored<T>>)
    requires IsPage(rows, after, until, Page(a)) && IsPage(rows, after, until, Page(b))
    ensures |b| <= |a|
  {
    if |a| < |b| {
      assert b[..|a| + 1] == rows[..|a| + 1];
      FitsPrefix(b, |a| + 1);
    }
  }

  lemma NoHole<T>(rows: seq<Stored<T>>, after: nat, until: nat, items: seq<Stored<T>>)
    requires IsPage(rows, after, until, Page(items))
    ensures !Missing(rows, after, until)
  {
    forall n | 0 <= n < |rows|
      ensures !HoleAt(rows, after, n)
    {
      if n < |items| {
        assert items[n] == rows[n];
      } else if |items| < n {
        assert rows[..n][..|items| + 1] == rows[..|items| + 1];
        if Fits(rows[..n]) { FitsPrefix(rows[..n], |items| + 1); }
      }
    }
  }

  // `readEvents`, over the rows its query selected.
  method ReadEvents<T>(rows: seq<Stored<T>>, after: nat, until: nat) returns (r: Page<T>)
    ensures IsPage(rows, after, until, r)
  {
    var out: seq<Stored<T>> := [];
    var bytes, expected := 0, after + 1;
    for i := 0 to |rows|
      invariant out == rows[..i] && bytes == Bytes(out) && expected == after + 1 + i
      invariant Consecutive(out, after) && Fits(out)
    {
      if rows[i].at != expected {
        assert HoleAt(rows, after, i);
        return CursorExpired;
      }
      assert rows[..i + 1] == out + [rows[i]];
      assert (out + [rows[i]])[..|out|] == out;
      if |out| > 0 && bytes + rows[i].size > PAGE_BYTES {
        assert Bytes(rows[..i + 1]) == bytes + rows[i].size;
        return Page(out);
      }
      bytes := bytes + rows[i].size;
      out := out + [rows[i]];
      expected := expected + 1;
    }
    assert out == rows;
    if |out| == 0 && after < until { return CursorExpired; }
    return Page(out);
  }

  // `readChanges`: no size limit, and nothing is left out after a hole.
  method ReadChanges<T>(rows: seq<Stored<T>>, after: nat, until: nat) returns (r: Page<T>)
    ensures r == if Consecutive(rows, after) && (rows == [] ==> after >= until) then Page(rows) else CursorExpired
  {
    var expected := after + 1;
    for i := 0 to |rows|
      invariant expected == after + 1 + i && Consecutive(rows[..i], after)
    {
      if rows[i].at != expected { return CursorExpired; }
      expected := expected + 1;
    }
    assert rows[..|rows|] == rows;
    if |rows| == 0 && after < until { return CursorExpired; }
    return Page(rows);
  }

  // What `checkpointItems` answers: the items that fit, where the next page starts, if anywhere.
  ghost predicate IsItems<T>(rows: seq<Stored<T>>, after: nat, count: nat, items: seq<Stored<T>>, next: nat, more: bool) {
    && items <= rows && Fits(items) && (|items| < |rows| ==> !Fits(rows[..|items| + 1]))
    && next == (if items == [] then after else items[|items| - 1].at)
    && (more <==> next < count)
  }

  method CheckpointItems<T>(rows: seq<Stored<T>>, after: nat, count: nat) returns (items: seq<Stored<T>>, next: nat, more: bool)
    ensures IsItems(rows, after, count, items, next, more)
  {
    items, next := [], after;
    var used := 0;
    for i := 0 to |rows|
      invariant items == rows[..i] && used == Bytes(items) && Fits(items)
      invariant next == if items == [] then after else items[|items| - 1].at
    {
      assert rows[..i + 1] == items + [rows[i]];
      assert (items + [rows[i]])[..|items|] == items;
      if |items| > 0 && used + rows[i].size > PAGE_BYTES {
        assert Bytes(rows[..i + 1]) == used + rows[i].size;
        break;
      }
      used := used + rows[i].size;
      items := items + [rows[i]];
      next := rows[i].at;
    }
    more := next < count;
  }

  // ----- pages of a table without holes -----

  predicate Dense<T>(table: seq<Stored<T>>, earliest: nat) {
    earliest >= 1 && forall i :: 0 <= i < |table| ==> table[i].at == earliest + i
  }

  // The rows after one sequence up to another.
  function Slice<T>(table: seq<Stored<T>>, earliest: nat, after: nat, until: nat): seq<Stored<T>>
    requires earliest <= after + 1 && after <= until < earliest + |table|
  {
    table[after + 1 - earliest..until + 1 - earliest]
  }

  lemma {:induction false} BetweenDense<T>(table: seq<Stored<T>>, earliest: nat, after: nat, until: nat)
    requires Dense(table, earliest) && earliest <= after + 1 && after <= until < earliest + |table|
    ensures Between(table, after, until) == Slice(table, earliest, after, until)
    decreases |table|
  {
    if table != [] {
      var rest := table[1..];
      assert Dense(rest, earliest + 1);
      if earliest <= after {
        BetweenDense(rest, earliest + 1, after, until);
      } else if until >= earliest {
        BetweenDense(rest, earliest + 1, after + 1, until);
        BetweenFrom(rest, earliest + 1, after, until);
      } else {
        BetweenNone(rest, earliest + 1, after, until);
      }
    }
  }

  lemma {:induction false} BetweenFrom<T>(table: seq<Stored<T>>, earliest: nat, after: nat, until: nat)
    requires Dense(table, earliest) && after + 1 < earliest
    ensures Between(table, after, until) == Between(table, after + 1, until)
    decreases |table|
  {
    if table != [] {
      assert Dense(table[1..], earliest + 1);
      BetweenFrom(table[1..], earliest + 1, after, until);
    }
  }

  lemma {:induction false} BetweenNone<T>(table: seq<Stored<T>>, earliest: nat, after: nat, until: nat)
    requires Dense(table, earliest) && until < earliest
    ensures Between(table, after, until) == []
    decreases |table|
  {
    if table != [] {
      assert Dense(table[1..], earliest + 1);
      BetweenNone(table[1..], earliest + 1, after, until);
    }
  }

  // A page of such a table never fails, is the next stretch of it, and is not empty while
  // there is something to read.
  lemma DensePage<T>(table: seq<Stored<T>>, earliest: nat, after: nat, until: nat, limit: nat, r: Page<T>)
    requires Dense(table, earliest) && earliest <= after + 1 && after <= until < earliest + |table| && limit >= 1
    requires IsPage(Query(table, after, until, limit), after, until, r)
    ensures r.Page? && after + |r.items| <= until && r.items == Slice(table, earliest, after, after + |r.items|)
    ensures after < until ==> r.items != []
  {
    BetweenDense(table, earliest, after, until);
    var rows := Query(table, after, until, limit);
    assert Consecutive(rows, after);
    forall n | 0 <= n < |rows|
      ensures !HoleAt(rows, after, n)
    {
    }
  }

  // The position after a page.
  function Next<T>(after: nat, items: seq<Stored<T>>): nat {
    after + |items|
  }

  // Pages fetched one after another until `until`, each with its own limit, from tables that
  // have grown in the meantime.
  ghost predicate Fetched<T>(table: seq<Stored<T>>, earliest: nat, after: nat, until: nat, limits: seq<nat>, tables: seq<seq<Stored<T>>>, pages: seq<seq<Stored<T>>>)
    decreases |pages|
  {
    && |limits| == |pages| == |tables|
    && if pages == [] then after == until
       else
         && after < until && limits[0] >= 1 && table <= tables[0] && Dense(tables[0], earliest)
         && IsPage(Query(tables[0], after, until, limits[0]), after, until, Page(pages[0]))
         && Fetched(table, earliest, Next(after, pages[0]), until, limits[1..], tables[1..], pages[1..])
  }

  function Flat<T>(pages: seq<seq<T>>): seq<T> {
    if |pages| == 0 then [] else pages[0] + Flat(pages[1..])
  }

  lemma SlicesJoin<T>(table: seq<Stored<T>>, earliest: nat, a: nat, b: nat, c: nat)
    requires earliest <= a + 1 && a <= b <= c < earliest + |table|
    ensures Slice(table, earliest, a, b) + Slice(table, earliest, b, c) == Slice(table, earliest, a, c)
  {
  }

  lemma SliceGrown<T>(table: seq<Stored<T>>, grown: seq<Stored<T>>, earliest: nat, a: nat, b: nat)
    requires earliest <= a + 1 && a <= b < earliest + |table| && table <= grown
    ensures Slice(grown, earliest, a, b) == Slice(table, earliest, a, b)
  {
  }

  // Whatever the limits and sizes, the pages together are the whole stretch, once and in
  // order; and there are at most as many as there are rows.
  lemma {:induction false} PagesAddUp<T>(table: seq<Stored<T>>, earliest: nat, after: nat, until: nat,
                                         limits: seq<nat>, tables: seq<seq<Stored<T>>>, pages: seq<seq<Stored<T>>>)
    requires Dense(table, earliest) && earliest <= after + 1 && after <= until < earliest + |table|
    requires Fetched(table, earliest, after, until, limits, tables, pages)
    ensures Flat(pages) == Slice(table, earliest, after, until) && |pages| <= until - after
    decreases |pages|
  {
    if pages != [] {
      DensePage(tables[0], earliest, after, until, limits[0], Page(pages[0]));
      var next := Next(after, pages[0]);
      PagesAddUp(table, earliest, next, until, limits[1..], tables[1..], pages[1..]);
      SliceGrown(table, tables[0], earliest, after, next);
      SlicesJoin(table, earliest, after, next, until);
    }
  }

  // Item pages of a checkpoint are pages of a dense table too, so they add up to the whole
  // checkpoint; a further page is announced exactly while there is one.
  lemma ItemsArePage<T>(table: seq<Stored<T>>, after: nat, limit: nat, items: seq<Stored<T>>, next: nat, more: bool)
    requires Dense(table, 1) && after <= |table| && limit >= 1
    requires IsItems(Query(table, after, |table|, limit), after, |table|, items, next, more)
    ensures IsPage(Query(table, after, |table|, limit), after, |table|, Page(items))
    ensures next == Next(after, items) && (more <==> Next(after, items) < |table|)
  {
    BetweenDense(table, 1, after, |table|);
    assert Consecutive(Query(table, after, |table|, limit), after);
  }
}
