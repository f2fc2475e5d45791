// The strict JSON reader over the tokens of a document: no repeated names, no trailing
// tokens, no node deeper than the limit.
module StrictJson {
  import opened Basics

  const MAX_DEPTH := 64

  // Bad stands for bytes the tokenizer rejects.
  datatype Token = Text(id: Id) | Atom(id: Id) | OpenObject | CloseObject | OpenArray | CloseArray | Bad

  // What is read: names are unordered and unique.
  datatype Json = Scalar(token: Token) | Array(items: seq<Json>) | Object(fields: map<Id, Json>)

  predicate Closes(t: Token) {
    t.CloseObject? || t.CloseArray?
  }

  // `d.More()`.
  predicate More(ts: seq<Token>, p: nat) {
    p < |ts| && !ts[p].Bad? && !Closes(ts[p])
  }

  // ----- the reader as a function: the value at p and the position after it -----

  function Value(ts: seq<Token>, p: nat, depth: nat): (r: Option<(Json, nat)>)
    ensures r.Some? ==> p < r.value.1 <= |ts|
    decreases |ts| - p, 0
  {
    if depth > MAX_DEPTH || p >= |ts| then None
    else
      match ts[p]
      case OpenObject => Members(ts, p + 1, depth, map[])
      case OpenArray => Elements(ts, p + 1, depth, [])
      case Text(_) => Some((Scalar(ts[p]), p + 1))
      case Atom(_) => Some((Scalar(ts[p]), p + 1))
      case _ => None
  }

  function Members(ts: seq<Token>, p: nat, depth: nat, m: map<Id, Json>): (r: Option<(Json, nat)>)
    ensures r.Some? ==> p < r.value.1 <= |ts|
    decreases |ts| - p, 1
  {
    if More(ts, p) then
      if !ts[p].Text? || ts[p].id in m then None
      else
        (match Value(ts, p + 1, depth + 1)
         case None => None
         case Some((v, q)) => Members(ts, q, depth, m[ts[p].id := v]))
    else if p < |ts| && ts[p].CloseObject? then Some((Object(m), p + 1))
    else None
  }

  function Elements(ts: seq<Token>, p: nat, depth: nat, a: seq<Json>): (r: Option<(Json, nat)>)
    ensures r.Some? ==> p < r.value.1 <= |ts|
    decreases |ts| - p, 1
  {
    if More(ts, p) then
      (match Value(ts, p, depth + 1)
       case None => None
       case Some((v, q)) => Elements(ts, q, depth, a + [v]))
    else if p < |ts| && ts[p].CloseArray? then Some((Array(a), p + 1))
    else None
  }

  function Decode(ts: seq<Token>): Option<Json> {
    match Value(ts, 0, 0)
    case Some((v, q)) => if q == |ts| then Some(v) else None
    case None => None
  }

  // ----- the reader as it consumes its decoder -----

  class Decoder {
    const tokens: seq<Token>
    var pos: nat

    constructor (tokens: seq<Token>)
      ensures this.tokens == tokens && pos == 0
    {
      this.tokens, pos := tokens, 0;
    }

    // The next token; None at the end and on bytes that are no token.
    method Token() returns (t: Option<Token>)
      modifies this
      ensures if old(pos) < |tokens| && !tokens[old(pos)].Bad?
        then t == Some(tokens[old(pos)]) && pos == old(pos) + 1
        else t.None? && pos == old(pos)
    {
      if pos < |tokens| && !tokens[pos].Bad? {
        t := Some(tokens[pos]);
        pos := pos + 1;
      } else {
        t := None;
      }
    }

    // `readValue`.
    method ReadValue(depth: nat) returns (r: Option<Json>)
      requires pos <= |tokens|
      modifies this
      ensures pos <= |tokens| && old(pos) <= pos
      ensures r == match Value(tokens, old(pos), depth) case Some((v, _)) => Some(v) case None => None
      ensures r.Some? ==> pos == Value(tokens, old(pos), depth).value.1
      decreases |tokens| - pos
    {
      if depth > MAX_DEPTH { return None; }
      var t := Token();
      if t.None? { return None; }
      match t.value
      case OpenObject =>
        var m: map<Id, Json> := map[];
        while More(tokens, pos)
          invariant old(pos) < pos <= |tokens|
          invariant Value(tokens, old(pos), depth) == Members(tokens, pos, depth, m)
          decreases |tokens| - pos
        {
          var key := Token();
          if !key.value.Text? || key.value.id in m { return None; }
          var v := ReadValue(depth + 1);
          if v.None? { return None; }
          m := m[key.value.id := v.value];
        }
        var end := Token();
        if end != Some(CloseObject) { return None; }
        return Some(Object(m));
      case OpenArray =>
        var a: seq<Json> := [];
        while More(tokens, pos)
          invariant old(pos) < pos <= |tokens|
          invariant Value(tokens, old(pos), depth) == Elements(tokens, pos, depth, a)
          decreases |tokens| - pos
        {
          var v := ReadValue(depth + 1);
          if v.None? { return None; }
          a := a + [v.value];
        }
        var end := Token();
        if end != Some(CloseArray) { return None; }
        return Some(Array(a));
      case Text(_) => return Some(Scalar(t.value));
      case Atom(_) => return Some(Scalar(t.value));
      case _ => return None;
    }
  }

  // `Decode`: one value and nothing after it.
  method DecodeTokens(ts: seq<Token>) returns (r: Option<Json>)
    ensures r == Decode(ts)
  {
    var d := new Decoder(ts);
    var v := d.ReadValue(0);
    if v.None? || d.pos < |ts| { return None; }
    return v;
  }

  // ----- documents -----

  // A document as written: names in order, possibly repeated.
  datatype Doc = Leaf(token: Token) | List(elems: Elems) | Record(members: Names)
  datatype Elems = NoElem | Elem(head: Doc, rest: Elems)
  datatype Names = NoName | Name(name: Id, doc: Doc, rest: Names)

  function Print(d: Doc): (r: seq<Token>)
    ensures |r| > 0
  {
    match d
    case Leaf(t) => [t]
    case List(es) => [OpenArray] + PrintElems(es) + [CloseArray]
    case Record(ms) => [OpenObject] + PrintNames(ms) + [CloseObject]
  }

  function PrintElems(es: Elems): seq<Token> {
    match es case NoElem => [] case Elem(d, rest) => Print(d) + PrintElems(rest)
  }

  function PrintNames(ms: Names): seq<Token> {
    match ms case NoName => [] case Name(n, d, rest) => [Text(n)] + Print(d) + PrintNames(rest)
  }

  // Leaves are scalars.
  predicate IsDoc(d: Doc) {
    match d
    case Leaf(t) => t.Text? || t.Atom?
    case List(es) => AreElems(es)
    case Record(ms) => AreNames(ms)
  }

  predicate AreElems(es: Elems) {
    match es case NoElem => true case Elem(d, rest) => IsDoc(d) && AreElems(rest)
  }

  predicate AreNames(ms: Names) {
    match ms case NoName => true case Name(_, d, rest) => IsDoc(d) && AreNames(rest)
  }

  // No node deeper than the limit, no name twice in one object.
  predicate Strict(d: Doc, depth: nat) {
    && depth <= MAX_DEPTH
    && match d
       case Leaf(_) => true
       case List(es) => StrictElems(es, depth + 1)
       case Record(ms) => StrictNames(ms, depth + 1, {})
  }

  predicate StrictElems(es: Elems, depth: nat) {
    match es case NoElem => true case Elem(d, rest) => Strict(d, depth) && StrictElems(rest, depth)
  }

  predicate StrictNames(ms: Names, depth: nat, seen: set<Id>) {
    match ms case NoName => true case Name(n, d, rest) => n !in seen && Strict(d, depth) && StrictNames(rest, depth, seen + {n})
  }

  // What a document means.
  function Meaning(d: Doc): Json {
    match d
    case Leaf(t) => Scalar(t)
    case List(es) => Array(Meanings(es))
    case Record(ms) => Object(Fields(ms, map[]))
  }

  function Meanings(es: Elems): seq<Json> {
    match es case NoElem => [] case Elem(d, rest) => [Meaning(d)] + Meanings(rest)
  }

  function Fields(ms: Names, before: map<Id, Json>): map<Id, Json> {
    match ms case NoName => before case Name(n, d, rest) => Fields(rest, before[n := Meaning(d)])
  }

  // ----- where a document stands among the tokens -----

  function Length(d: Doc): (n: nat)
    ensures n > 0
  {
    match d case Leaf(_) => 1 case List(es) => 2 + ElemsLength(es) case Record(ms) => 2 + NamesLength(ms)
  }

  function ElemsLength(es: Elems): nat {
    match es case NoElem => 0 case Elem(d, rest) => Length(d) + ElemsLength(rest)
  }

  function NamesLength(ms: Names): nat {
    match ms case NoName => 0 case Name(_, d, rest) => 1 + Length(d) + NamesLength(rest)
  }

  predicate Is(ts: seq<Token>, p: nat, t: Token) {
    p < |ts| && ts[p] == t
  }

  // The document is written from position p on.
  predicate Stands(ts: seq<Token>, p: nat, d: Doc)
    decreases d
  {
    match d
    case Leaf(t) => Is(ts, p, t)
    case List(es) => Is(ts, p, OpenArray) && ElemsStand(ts, p + 1, es) && Is(ts, p + 1 + ElemsLength(es), CloseArray)
    case Record(ms) => Is(ts, p, OpenObject) && NamesStand(ts, p + 1, ms) && Is(ts, p + 1 + NamesLength(ms), CloseObject)
  }

  predicate ElemsStand(ts: seq<Token>, p: nat, es: Elems)
    decreases es
  {
    match es case NoElem => true case Elem(d, rest) => Stands(ts, p, d) && ElemsStand(ts, p + Length(d), rest)
  }

  predicate NamesStand(ts: seq<Token>, p: nat, ms: Names)
    decreases ms
  {
    match ms
    case NoName => true
    case Name(n, d, rest) => Is(ts, p, Text(n)) && Stands(ts, p + 1, d) && NamesStand(ts, p + 1 + Length(d), rest)
  }

  lemma FirstToken(ts: seq<Token>, p: nat, d: Doc)
    requires IsDoc(d) && Stands(ts, p, d)
    ensures More(ts, p)
  {
  }

  // ----- reading what is written -----

  // A document is read as what it means if it is strict, and refused if not.
  lemma {:induction false} ReadsDoc(ts: seq<Token>, p: nat, d: Doc, depth: nat)
    requires IsDoc(d) && Stands(ts, p, d)
    ensures Value(ts, p, depth) == if Strict(d, depth) then Some((Meaning(d), p + Length(d))) else None
    decreases d
  {
    if depth <= MAX_DEPTH {
      match d
      case Leaf(t) =>
      case List(es) =>
        ReadsElems(ts, p + 1, es, depth, []);
        assert [] + Meanings(es) == Meanings(es);
      case Record(ms) =>
        var none: map<Id, Json> := map[];
        assert none.Keys == {};
        ReadsNames(ts, p + 1, ms, depth, none);
    }
  }

  lemma {:induction false} ReadsElems(ts: seq<Token>, p: nat, es: Elems, depth: nat, a: seq<Json>)
    requires AreElems(es) && ElemsStand(ts, p, es) && Is(ts, p + ElemsLength(es), CloseArray)
    ensures Elements(ts, p, depth, a)
         == if StrictElems(es, depth + 1) then Some((Array(a + Meanings(es)), p + ElemsLength(es) + 1)) else None
    decreases es
  {
    match es
    case NoElem => assert a + [] == a;
    case Elem(d, rest) =>
      var q, a' := p + Length(d), a + [Meaning(d)];
      FirstToken(ts, p, d);
      ReadsDoc(ts, p, d, depth + 1);
      if Strict(d, depth + 1) {
        assert Elements(ts, p, depth, a) == Elements(ts, q, depth, a');
        ReadsElems(ts, q, rest, depth, a');
        assert a' + Meanings(rest) == a + Meanings(es);
      }
  }

  // One member of an object, and the rest of it.
  lemma {:induction false} MembersFold(ts: seq<Token>, p: nat, depth: nat, m: map<Id, Json>, n: Id)
    requires More(ts, p) && ts[p] == Text(n)
    ensures Members(ts, p, depth, m) ==
      if n in m || Value(ts, p + 1, depth + 1).None? then None
      else Members(ts, Value(ts, p + 1, depth + 1).value.1, depth, m[n := Value(ts, p + 1, depth + 1).value.0])
  {
  }

  lemma {:induction false} NameStands(ts: seq<Token>, p: nat, n: Id, d: Doc, rest: Names)
    requires AreNames(Name(n, d, rest)) && NamesStand(ts, p, Name(n, d, rest))
    ensures More(ts, p) && ts[p] == Text(n) && IsDoc(d) && Stands(ts, p + 1, d)
    ensures AreNames(rest) && NamesStand(ts, p + 1 + Length(d), rest)
  {
  }

  // A name given twice ends the reading, as it ends the strictness.
  lemma {:induction false} NameTwice(ts: seq<Token>, p: nat, n: Id, d: Doc, rest: Names, depth: nat, m: map<Id, Json>)
    requires More(ts, p) && ts[p] == Text(n) && n in m
    ensures Members(ts, p, depth, m) == None && !StrictNames(Name(n, d, rest), depth + 1, m.Keys)
  {
  }

  lemma {:induction false} NameDeep(ts: seq<Token>, p: nat, n: Id, d: Doc, rest: Names, depth: nat, m: map<Id, Json>)
    requires More(ts, p) && ts[p] == Text(n) && !Strict(d, depth + 1) && Value(ts, p + 1, depth + 1).None?
    ensures Members(ts, p, depth, m) == None && !StrictNames(Name(n, d, rest), depth + 1, m.Keys)
  {
  }

  // Otherwise the rest decides.
  lemma {:induction false} NameNext(ts: seq<Token>, p: nat, n: Id, d: Doc, rest: Names, depth: nat, m: map<Id, Json>)
    requires More(ts, p) && ts[p] == Text(n) && n !in m && Strict(d, depth + 1)
    requires Value(ts, p + 1, depth + 1) == Some((Meaning(d), p + 1 + Length(d)))
    ensures var q, m' := p + 1 + Length(d), m[n := Meaning(d)];
      && Members(ts, p, depth, m) == Members(ts, q, depth, m')
      && StrictNames(Name(n, d, rest), depth + 1, m.Keys) == StrictNames(rest, depth + 1, m'.Keys)
      && Fields(Name(n, d, rest), m) == Fields(rest, m') && p + NamesLength(Name(n, d, rest)) == q + NamesLength(rest)
  {
    MembersFold(ts, p, depth, m, n);
    assert m[n := Meaning(d)].Keys == m.Keys + {n};
  }

  lemma {:induction false} ReadsNames(ts: seq<Token>, p: nat, ms: Names, depth: nat, m: map<Id, Json>)
    requires AreNames(ms) && NamesStand(ts, p, ms) && Is(ts, p + NamesLength(ms), CloseObject)
    ensures Members(ts, p, depth, m)
         == if StrictNames(ms, depth + 1, m.Keys) then Some((Object(Fields(ms, m)), p + NamesLength(ms) + 1)) else None
    decreases ms
  {
    match ms
    case NoName =>
    case Name(n, d, rest) =>
      NameStands(ts, p, n, d, rest);
      if n in m {
        NameTwice(ts, p, n, d, rest, depth, m);
      } else {
        ReadsDoc(ts, p + 1, d, depth + 1);
        if Strict(d, depth + 1) {
          NameNext(ts, p, n, d, rest, depth, m);
          ReadsNames(ts, p + 1 + Length(d), rest, depth, m[n := Meaning(d)]);
        } else {
          NameDeep(ts, p, n, d, rest, depth, m);
        }
      }
  }

  // ----- what is read is written there -----

  lemma {:induction false} DocRead(ts: seq<Token>, p: nat, depth: nat) returns (d: Doc)
    requires Value(ts, p, depth).Some?
    ensures IsDoc(d) && Stands(ts, p, d) && p + Length(d) == Value(ts, p, depth).value.1
    decreases |ts| - p, 0
  {
    if Is(ts, p, OpenObject) {
      assert Value(ts, p, depth) == Members(ts, p + 1, depth, map[]);
      var ms := NamesRead(ts, p + 1, depth, map[]);
      d := Record(ms);
    } else if Is(ts, p, OpenArray) {
      assert Value(ts, p, depth) == Elements(ts, p + 1, depth, []);
      var es := ElemsRead(ts, p + 1, depth, []);
      d := List(es);
    } else {
      d := Leaf(ts[p]);
    }
  }

  lemma {:induction false} MembersNext(ts: seq<Token>, p: nat, depth: nat, m: map<Id, Json>)
    requires Members(ts, p, depth, m).Some? && More(ts, p)
    ensures ts[p].Text? && Value(ts, p + 1, depth + 1).Some?
    ensures var (v, q) := Value(ts, p + 1, depth + 1).value;
      Members(ts, q, depth, m[ts[p].id := v]) == Members(ts, p, depth, m)
  {
  }

  lemma {:induction false} NamesRead(ts: seq<Token>, p: nat, depth: nat, m: map<Id, Json>) returns (ms: Names)
    requires Members(ts, p, depth, m).Some?
    ensures AreNames(ms) && NamesStand(ts, p, ms) && Is(ts, p + NamesLength(ms), CloseObject)
    ensures p + NamesLength(ms) + 1 == Members(ts, p, depth, m).value.1
    decreases |ts| - p, 1
  {
    if More(ts, p) {
      MembersNext(ts, p, depth, m);
      var (v, q) := Value(ts, p + 1, depth + 1).value;
      var d := DocRead(ts, p + 1, depth + 1);
      var rest := NamesRead(ts, q, depth, m[ts[p].id := v]);
      ms := Name(ts[p].id, d, rest);
    } else {
      ms := NoName;
    }
  }

  lemma {:induction false} ElemsRead(ts: seq<Token>, p: nat, depth: nat, a: seq<Json>) returns (es: Elems)
    requires Elements(ts, p, depth, a).Some?
    ensures AreElems(es) && ElemsStand(ts, p, es) && Is(ts, p + ElemsLength(es), CloseArray)
    ensures p + ElemsLength(es) + 1 == Elements(ts, p, depth, a).value.1
    decreases |ts| - p, 1
  {
    if More(ts, p) {
      var (v, q) := Value(ts, p, depth + 1).value;
      var d := DocRead(ts, p, depth + 1);
      var rest := ElemsRead(ts, q, depth, a + [v]);
      es := Elem(d, rest);
    } else {
      es := NoElem;
    }
  }

  // ----- standing is being printed -----

  lemma {:induction false} DocLength(d: Doc)
    ensures |Print(d)| == Length(d)
    decreases d
  {
    match d
    case Leaf(_) =>
    case List(es) => ElemsLengths(es);
    case Record(ms) => NamesLengths(ms);
  }

  lemma {:induction false} ElemsLengths(es: Elems)
    ensures |PrintElems(es)| == ElemsLength(es)
    decreases es
  {
    if es.Elem? { DocLength(es.head); ElemsLengths(es.rest); }
  }

  lemma {:induction false} NamesLengths(ms: Names)
    ensures |PrintNames(ms)| == NamesLength(ms)
    decreases ms
  {
    if ms.Name? { DocLength(ms.doc); NamesLengths(ms.rest); }
  }

  // A printed document stands wherever it is written, and nothing else does.
  lemma {:induction false} Printed(before: seq<Token>, d: Doc, after: seq<Token>)
    ensures Stands(before + Print(d) + after, |before|, d)
    decreases d
  {
    match d
    case Leaf(_) =>
    case List(es) =>
      Joined(before, [OpenArray], PrintElems(es), [CloseArray], after);
      PrintedElems(before + [OpenArray], es, [CloseArray] + after);
      ElemsLengths(es);
    case Record(ms) =>
      Joined(before, [OpenObject], PrintNames(ms), [CloseObject], after);
      PrintedNames(before + [OpenObject], ms, [CloseObject] + after);
      NamesLengths(ms);
  }

  lemma {:induction false} PrintedElems(before: seq<Token>, es: Elems, after: seq<Token>)
    ensures ElemsStand(before + PrintElems(es) + after, |before|, es)
    decreases es
  {
    if es.Elem? {
      var rest := PrintElems(es.rest);
      JoinedTwo(before, Print(es.head), rest, after);
      Printed(before, es.head, rest + after);
      PrintedElems(before + Print(es.head), es.rest, after);
      DocLength(es.head);
    }
  }

  lemma JoinedTwo(a: seq<Token>, b: seq<Token>, c: seq<Token>, d: seq<Token>)
    ensures a + (b + c) + d == a + b + (c + d) && a + (b + c) + d == a + b + c + d
  {
  }

  lemma Joined(a: seq<Token>, b: seq<Token>, c: seq<Token>, d: seq<Token>, e: seq<Token>)
    ensures a + (b + c + d) + e == a + b + c + (d + e) && a + (b + c + d) + e == a + b + c + d + e
  {
  }

  lemma {:induction false} PrintedNames(before: seq<Token>, ms: Names, after: seq<Token>)
    ensures NamesStand(before + PrintNames(ms) + after, |before|, ms)
    decreases ms
  {
    if ms.Name? {
      var front, rest := before + [Text(ms.name)], PrintNames(ms.rest);
      Joined(before, [Text(ms.name)], Print(ms.doc), rest, after);
      Printed(front, ms.doc, rest + after);
      PrintedNames(front + Print(ms.doc), ms.rest, after);
      DocLength(ms.doc);
    }
  }

  lemma Bracketed(ts: seq<Token>, p: nat, q: nat)
    requires p < q < |ts|
    ensures ts[p..q + 1] == [ts[p]] + ts[p + 1..q] + [ts[q]]
  {
  }

  lemma Parts(ts: seq<Token>, p: nat, q: nat, r: nat)
    requires p < q <= r <= |ts|
    ensures ts[p..r] == ts[p..q] + ts[q..r] && ts[p..r] == [ts[p]] + ts[p + 1..q] + ts[q..r]
  {
  }

  lemma {:induction false} StandsPrinted(ts: seq<Token>, p: nat, d: Doc)
    requires Stands(ts, p, d)
    ensures p + Length(d) <= |ts| && ts[p..p + Length(d)] == Print(d)
    decreases d
  {
    match d
    case Leaf(_) =>
    case List(es) =>
      ElemsPrinted(ts, p + 1, es);
      Bracketed(ts, p, p + 1 + ElemsLength(es));
    case Record(ms) =>
      NamesPrinted(ts, p + 1, ms);
      Bracketed(ts, p, p + 1 + NamesLength(ms));
  }

  lemma {:induction false} ElemsPrinted(ts: seq<Token>, p: nat, es: Elems)
    requires ElemsStand(ts, p, es) && p <= |ts|
    ensures p + ElemsLength(es) <= |ts| && ts[p..p + ElemsLength(es)] == PrintElems(es)
    decreases es
  {
    if es.Elem? {
      var q := p + Length(es.head);
      StandsPrinted(ts, p, es.head);
      ElemsPrinted(ts, q, es.rest);
      Parts(ts, p, q, q + ElemsLength(es.rest));
    }
  }

  lemma {:induction false} NamesPrinted(ts: seq<Token>, p: nat, ms: Names)
    requires NamesStand(ts, p, ms) && p <= |ts|
    ensures p + NamesLength(ms) <= |ts| && ts[p..p + NamesLength(ms)] == PrintNames(ms)
    decreases ms
  {
    if ms.Name? {
      var q := p + 1 + Length(ms.doc);
      StandsPrinted(ts, p + 1, ms.doc);
      NamesPrinted(ts, q, ms.rest);
      Parts(ts, p, q, q + NamesLength(ms.rest));
    }
  }

  // ----- the reader is exact -----

  // Reading inverts printing, for exactly the strict documents.
  lemma DecodesPrinted(d: Doc)
    requires IsDoc(d)
    ensures Decode(Print(d)) == if Strict(d, 0) then Some(Meaning(d)) else None
  {
    Printed([], d, []);
    DocLength(d);
    assert [] + Print(d) + [] == Print(d);
    ReadsDoc(Print(d), 0, d, 0);
  }

  // A stream is accepted if and only if it is exactly one strict document, and then it is
  // read as what that document means.
  lemma DecodesExactly(ts: seq<Token>, v: Json)
    ensures Decode(ts) == Some(v) <==> exists d :: IsDoc(d) && Strict(d, 0) && ts == Print(d) && v == Meaning(d)
  {
    if Decode(ts).Some? {
      var d := DocRead(ts, 0, 0);
      StandsPrinted(ts, 0, d);
      assert ts == Print(d);
      DecodesPrinted(d);
    }
    forall d | IsDoc(d) && Strict(d, 0) && ts == Print(d)
      ensures Decode(ts) == Some(Meaning(d))
    {
      DecodesPrinted(d);
    }
  }
}
