// Exporting a session's messages as a portable transcript, and importing one as a session.
module Transcript {
  import opened Basics
  import opened History
  import opened HistoryTheorems

  const EXPORT_ITEMS := 100
  const EXPORT_TEXT := 4000
  const EXPORT_BYTES := 57344

  datatype Item = Item(role: Role, text: string)

  datatype Export = Export(items: seq<Item>, truncated: bool)

  // The message rows in timeline order.
  function Messages(rows: seq<Row>): (r: seq<Body>)
    ensures forall i :: 0 <= i < |r| ==> r[i].Message?
  {
    if rows == [] then []
    else Messages(rows[..|rows| - 1]) + if rows[|rows| - 1].body.Message? then [rows[|rows| - 1].body] else []
  }

  // A message as the transcript shows it.
  function Shown(b: Body): Item
    requires b.Message?
  {
    Item(b.role, Truncate(b.text, EXPORT_TEXT).0)
  }

  function Size(items: seq<Item>, size: Item -> nat): nat {
    if items == [] then 0 else Size(items[..|items| - 1], size) + size(items[|items| - 1])
  }

  function ShownAll(bodies: seq<Body>): seq<Item>
    requires forall i :: 0 <= i < |bodies| ==> bodies[i].Message?
  {
    seq(|bodies|, i requires 0 <= i < |bodies| => Shown(bodies[i]))
  }

  // The first n messages stay within the limits.
  predicate Room(bodies: seq<Body>, n: nat, size: Item -> nat)
    requires n <= |bodies| && forall i :: 0 <= i < |bodies| ==> bodies[i].Message?
  {
    n <= EXPORT_ITEMS && Size(ShownAll(bodies[..n]), size) <= EXPORT_BYTES
  }

  predicate Lossless(b: Body)
    requires b.Message?
  {
    |b.text| <= EXPORT_TEXT && !b.truncated
  }

  predicate Whole(bodies: seq<Body>, n: nat)
    requires n <= |bodies| && forall i :: 0 <= i < |bodies| ==> bodies[i].Message?
  {
    forall i :: 0 <= i < n ==> Lossless(bodies[i])
  }

  lemma ShownNext(bodies: seq<Body>, n: nat, size: Item -> nat)
    requires n < |bodies| && forall i :: 0 <= i < |bodies| ==> bodies[i].Message?
    ensures ShownAll(bodies[..n + 1]) == ShownAll(bodies[..n]) + [Shown(bodies[n])]
    ensures Size(ShownAll(bodies[..n + 1]), size) == Size(ShownAll(bodies[..n]), size) + size(Shown(bodies[n]))
    ensures Whole(bodies, n + 1) <==> Whole(bodies, n) && Lossless(bodies[n])
  {
    assert (ShownAll(bodies[..n]) + [Shown(bodies[n])])[..n] == ShownAll(bodies[..n]);
  }

  // What an export must be: the longest prefix of the messages within the limits, marked
  // truncated exactly if a message is missing or not shown in full.
  ghost predicate IsExport(bodies: seq<Body>, size: Item -> nat, e: Export)
    requires forall i :: 0 <= i < |bodies| ==> bodies[i].Message?
  {
    var n := |e.items|;
    && n <= |bodies| && Room(bodies, n, size) && e.items == ShownAll(bodies[..n])
    && (n < |bodies| ==> !Room(bodies, n + 1, size))
    && (e.truncated <==> n < |bodies| || !Whole(bodies, n))
  }

  // The loop of `exportHistory`, over at most one row more than may be shown.
  method ExportHistory(bodies: seq<Body>, size: Item -> nat) returns (e: Export)
    requires forall i :: 0 <= i < |bodies| ==> bodies[i].Message?
    ensures IsExport(bodies, size, e)
  {
    var count := if |bodies| > EXPORT_ITEMS + 1 then EXPORT_ITEMS + 1 else |bodies|;
    var items: seq<Item>, truncated, bytes := [], count > EXPORT_ITEMS, 0;
    for i := 0 to count
      invariant i <= EXPORT_ITEMS && items == ShownAll(bodies[..i]) && bytes == Size(items, size) <= EXPORT_BYTES
      invariant truncated <==> count > EXPORT_ITEMS || !Whole(bodies, i)
    {
      var item := Shown(bodies[i]);
      ShownNext(bodies, i, size);
      if |items| >= EXPORT_ITEMS || bytes + size(item) > EXPORT_BYTES {
        return Export(items, true);
      }
      bytes := bytes + size(item);
      items := items + [item];
      truncated := truncated || |bodies[i].text| > EXPORT_TEXT || bodies[i].truncated;
    }
    return Export(items, truncated);
  }

  // ----- importing -----

  // A transcript the limits of an export allow.
  predicate Portable(items: seq<Item>, size: Item -> nat) {
    |items| <= EXPORT_ITEMS && Size(items, size) <= EXPORT_BYTES && forall i :: 0 <= i < |items| ==> |items[i].text| <= EXPORT_TEXT
  }

  // One `message.completed` event per item, with item ids drawn afresh.
  function Imported(s: Session, turn: Id, ids: seq<Id>, items: seq<Item>): Session
    requires |ids| == |items|
    decreases |items|
  {
    if items == [] then s
    else
      var n := |items| - 1;
      var s1 := Imported(s, turn, ids[..n], items[..n]);
      match Append(s1, turn, Completed(ids[n], items[n].role, items[n].text, false))
      case Some(s2) => s2
      case None => s1
  }

  predicate Distinct(ids: seq<Id>) {
    forall i, j :: 0 <= i < j < |ids| ==> ids[i] != ids[j]
  }

  function AsMessage(i: Item): Body {
    Message(i.role, i.text, true, false)
  }

  function AsMessages(items: seq<Item>): seq<Body> {
    seq(|items|, i requires 0 <= i < |items| => AsMessage(items[i]))
  }

  lemma ImportOne(s: Session, turn: Id, id: Id, item: Item)
    requires |item.text| <= TEXT_LIMIT && forall i :: 0 <= i < |s.timeline| ==> s.timeline[i].item != id
    ensures var r := Append(s, turn, Completed(id, item.role, item.text, false));
      r.Some? && r.value.last == s.last + 1 && r.value.timeline == s.timeline + [Row(turn, id, s.last + 1, s.last + 1, AsMessage(item))]
  {
    var k := Find(s.timeline, turn, id);
    assert k == |s.timeline|;
  }

  // One row per item, in order, with the text in full.
  function ImportedRows(turn: Id, ids: seq<Id>, items: seq<Item>): seq<Row>
    requires |ids| == |items|
  {
    seq(|items|, i requires 0 <= i < |items| => Row(turn, ids[i], i + 1, i + 1, AsMessage(items[i])))
  }

  lemma RowsNext(turn: Id, ids: seq<Id>, items: seq<Item>, n: nat)
    requires |ids| == |items| == n + 1
    ensures ImportedRows(turn, ids, items)
         == ImportedRows(turn, ids[..n], items[..n]) + [Row(turn, ids[n], n + 1, n + 1, AsMessage(items[n]))]
  {
  }

  lemma NewId(turn: Id, ids: seq<Id>, items: seq<Item>, n: nat)
    requires |ids| == |items| == n + 1 && Distinct(ids)
    ensures Distinct(ids[..n])
    ensures forall i :: 0 <= i < n ==> ImportedRows(turn, ids[..n], items[..n])[i].item != ids[n]
  {
  }

  lemma {:induction false} ImportRows(turn: Id, ids: seq<Id>, items: seq<Item>)
    requires |ids| == |items| && Distinct(ids) && forall i :: 0 <= i < |items| ==> |items[i].text| <= TEXT_LIMIT
    ensures var s := Imported(EMPTY, turn, ids, items); s.timeline == ImportedRows(turn, ids, items) && s.last == |items|
    decreases |items|
  {
    if items != [] {
      var n := |items| - 1;
      NewId(turn, ids, items, n);
      ImportRows(turn, ids[..n], items[..n]);
      ImportOne(Imported(EMPTY, turn, ids[..n], items[..n]), turn, ids[n], items[n]);
      RowsNext(turn, ids, items, n);
    }
  }

  lemma {:induction false} MessagesOf(rows: seq<Row>, items: seq<Item>)
    requires |rows| == |items| && forall i :: 0 <= i < |rows| ==> rows[i].body == AsMessage(items[i])
    ensures Messages(rows) == AsMessages(items)
    decreases |rows|
  {
    if rows != [] {
      var n := |rows| - 1;
      MessagesOf(rows[..n], items[..n]);
      assert AsMessages(items) == AsMessages(items[..n]) + [AsMessage(items[n])];
    }
  }

  lemma {:induction false} SizeGrows(items: seq<Item>, n: nat, size: Item -> nat)
    requires n <= |items|
    ensures Size(items[..n], size) <= Size(items, size)
    decreases |items|
  {
    if n < |items| {
      SizeGrows(items[..|items| - 1], n, size);
      assert items[..|items| - 1][..n] == items[..n];
    } else {
      assert items[..n] == items;
    }
  }

  // An export is within the limits, so it can be exported again in full.
  lemma ExportPortable(bodies: seq<Body>, size: Item -> nat, e: Export)
    requires (forall i :: 0 <= i < |bodies| ==> bodies[i].Message?) && IsExport(bodies, size, e)
    ensures Portable(e.items, size)
  {
  }

  // Importing a portable transcript and exporting the new session gives it back, whole.
  lemma RoundTrip(turn: Id, ids: seq<Id>, items: seq<Item>, size: Item -> nat, e: Export)
    requires |ids| == |items| && Distinct(ids) && Portable(items, size)
    requires IsExport(Messages(Imported(EMPTY, turn, ids, items).timeline), size, e)
    ensures e == Export(items, false)
  {
    var rows := Imported(EMPTY, turn, ids, items).timeline;
    ImportRows(turn, ids, items);
    MessagesOf(rows, items);
    var bodies, n := AsMessages(items), |e.items|;
    forall k | 0 <= k <= |items|
      ensures ShownAll(bodies[..k]) == items[..k] && Room(bodies, k, size)
    {
      assert ShownAll(bodies[..k]) == items[..k];
      SizeGrows(items, k, size);
    }
    assert items[..|items|] == items;
  }

  // So a second round trip changes nothing, whatever the first session held.
  lemma FixedPoint(bodies: seq<Body>, turn: Id, ids: seq<Id>, size: Item -> nat, first: Export, second: Export)
    requires (forall i :: 0 <= i < |bodies| ==> bodies[i].Message?) && IsExport(bodies, size, first)
    requires |ids| == |first.items| && Distinct(ids)
    requires IsExport(Messages(Imported(EMPTY, turn, ids, first.items).timeline), size, second)
    ensures second == Export(first.items, false)
  {
    ExportPortable(bodies, size, first);
    RoundTrip(turn, ids, first.items, size, second);
  }
}
