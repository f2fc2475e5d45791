// One-time message credits and the outbox of notifications: every row is paid for by an
// accepted consent, and a row is posted at most once, whatever crashes.
module Subscriptions {
  import opened Basics

  const MAX_CREDITS := 100

  // A user's consent to one template.
  type Key = (Id, Id)

  datatype Consent = Consent(credits: nat, accepted: bool)

  datatype SendState = Pending | Sending | Sent | Failed | Unknown

  datatype Row = Row(key: Key, state: SendState)

  // The delivery loop's item: reserved in the database, then handed to the network.
  datatype Flight = NoFlight | Reserved(row: Id) | Posted(row: Id)

  datatype Template = Template(id: Id, kind: Id)

  // `accepts` counts the accepted choices of each key, `posts` the network calls of each row.
  datatype State = State(
    identities: set<Id>, consents: map<Key, Consent>, outbox: map<Id, Row>, flight: Flight,
    accepts: map<Key, nat>, posts: multiset<Id>)

  function Credits(s: State, k: Key): nat {
    if k in s.consents then s.consents[k].credits else 0
  }

  function Accepts(s: State, k: Key): nat {
    if k in s.accepts then s.accepts[k] else 0
  }

  function RowsOf(outbox: map<Id, Row>, k: Key): set<Id> {
    set r | r in outbox && outbox[r].key == k
  }

  // ----- consent -----

  function FailPending(outbox: map<Id, Row>, k: Key): map<Id, Row> {
    map r | r in outbox :: if outbox[r].key == k && outbox[r].state.Pending? then outbox[r].(state := Failed) else outbox[r]
  }

  function ConsentOne(s: State, k: Key, accept: bool): State {
    if accept then
      var c := Credits(s, k);
      s.(consents := s.consents[k := Consent(if c < MAX_CREDITS then c + 1 else MAX_CREDITS, true)],
         accepts := s.accepts[k := Accepts(s, k) + 1])
    else s.(consents := s.consents[k := Consent(0, false)], outbox := FailPending(s.outbox, k))
  }

  function ConsentAll(s: State, user: Id, choices: seq<(Id, bool)>): State {
    if choices == [] then s
    else ConsentOne(ConsentAll(s, user, choices[..|choices| - 1]), (user, choices[|choices| - 1].0), choices[|choices| - 1].1)
  }

  predicate ChoicesOk(templates: seq<Template>, choices: seq<(Id, bool)>) {
    && (forall i :: 0 <= i < |choices| ==> exists t :: t in templates && t.id == choices[i].0)
    && (forall i, j :: 0 <= i < j < |choices| ==> choices[i].0 != choices[j].0)
  }

  // ----- queueing -----

  function QueueOne(s: State, k: Key, row: Id): State {
    if k in s.consents && s.consents[k].accepted && s.consents[k].credits > 0 && k.0 in s.identities && row !in s.outbox then
      s.(consents := s.consents[k := s.consents[k].(credits := s.consents[k].credits - 1)],
         outbox := s.outbox[row := Row(k, Pending)])
    else s
  }

  // A notification takes one credit of each of its templates; `rows` are fresh ids.
  function QueueAll(s: State, user: Id, kind: Id, templates: seq<Template>, rows: seq<Id>): State
    requires |rows| == |templates|
    decreases |templates|
  {
    if templates == [] then s
    else
      var n := |templates| - 1;
      var s1 := QueueAll(s, user, kind, templates[..n], rows[..n]);
      if templates[n].kind == kind then QueueOne(s1, (user, templates[n].id), rows[n]) else s1
  }

  // ----- delivery -----

  predicate Deliverable(s: State, row: Id) {
    && row in s.outbox && s.outbox[row].state.Pending? && s.outbox[row].key in s.consents
    && s.consents[s.outbox[row].key].accepted && s.outbox[row].key.0 in s.identities
  }

  function SetState(s: State, row: Id, state: SendState): State
    requires row in s.outbox
  {
    s.(outbox := s.outbox[row := s.outbox[row].(state := state)])
  }

  function Reserve(s: State, row: Id): State {
    if s.flight.NoFlight? && Deliverable(s, row) then SetState(s, row, Sending).(flight := Reserved(row)) else s
  }

  function Post(s: State): State {
    if s.flight.Reserved? then s.(flight := Posted(s.flight.row), posts := s.posts + multiset{s.flight.row}) else s
  }

  // The answer: an error code, or none when the result is unknown.
  function Outcome(code: Option<int>): SendState {
    if code.None? then Unknown else if code.value == 0 then Sent else Failed
  }

  // `zeroed` and `stored` tell whether the two updates after the answer succeed. If the last
  // one fails the row is left as being sent.
  function Finish(s: State, code: Option<int>, zeroed: bool, stored: bool): State {
    if !s.flight.Posted? || s.flight.row !in s.outbox then s
    else
      var row := s.flight.row;
      var k := s.outbox[row].key;
      var s1 := if code == Some(43101) && zeroed && k in s.consents then s.(consents := s.consents[k := s.consents[k].(credits := 0)]) else s;
      (if stored && s.outbox[row].state.Sending? then SetState(s1, row, Outcome(code)) else s1).(flight := NoFlight)
  }

  // The reservation went through although its commit was reported as failed: nothing is posted.
  function Abandon(s: State): State {
    if s.flight.Reserved? then s.(flight := NoFlight) else s
  }

  // What was under way when the process died is never sent again.
  function Restart(s: State): State {
    s.(flight := NoFlight, outbox := map r | r in s.outbox ::
      if s.outbox[r].state.Sending? then s.outbox[r].(state := Unknown) else s.outbox[r])
  }

  datatype Step =
    | Register(user: Id)
    | Consents(user: Id, choices: seq<(Id, bool)>)
    | Queues(user: Id, kind: Id, templates: seq<Template>, rows: seq<Id>)
    | Reserves(row: Id)
    | Posts
    | Abandons
    | Finishes(code: Option<int>, zeroed: bool, stored: bool)
    | Restarts

  function Apply(s: State, step: Step): State {
    match step
    case Register(user) => s.(identities := s.identities + {user})
    case Consents(user, choices) => if user in s.identities then ConsentAll(s, user, choices) else s
    case Queues(user, kind, templates, rows) => if |rows| == |templates| then QueueAll(s, user, kind, templates, rows) else s
    case Reserves(row) => Reserve(s, row)
    case Posts => Post(s)
    case Abandons => Abandon(s)
    case Finishes(code, zeroed, stored) => Finish(s, code, zeroed, stored)
    case Restarts => Restart(s)
  }

  function Run(s: State, steps: seq<Step>): State
    decreases |steps|
  {
    if steps == [] then s else Run(Apply(s, steps[0]), steps[1..])
  }

  const EMPTY := State({}, map[], map[], NoFlight, map[], multiset{})

  // ----- conservation -----

  // Credits and rows are covered by accepted consents.
  ghost predicate Paid(s: State) {
    forall k :: Credits(s, k) + |RowsOf(s.outbox, k)| <= Accepts(s, k) && Credits(s, k) <= MAX_CREDITS
  }

  // A row is posted at most once, only while it is being sent.
  ghost predicate Once(s: State) {
    && (forall r :: s.posts[r] <= 1)
    && (forall r :: r in s.posts ==> r in s.outbox && !s.outbox[r].state.Pending?)
    && (s.flight.Reserved? ==> s.flight.row !in s.posts && s.flight.row in s.outbox && s.outbox[s.flight.row].state.Sending?)
    && (s.flight.Posted? ==> s.flight.row in s.posts)
  }

  lemma RowsStay(a: map<Id, Row>, b: map<Id, Row>, k: Key)
    requires a.Keys == b.Keys && forall r :: r in a ==> b[r].key == a[r].key
    ensures RowsOf(b, k) == RowsOf(a, k)
  {
  }

  lemma ConsentPaid(s: State, k: Key, accept: bool)
    requires Paid(s)
    ensures Paid(ConsentOne(s, k, accept))
  {
    var s' := ConsentOne(s, k, accept);
    forall j
      ensures Credits(s', j) + |RowsOf(s'.outbox, j)| <= Accepts(s', j) && Credits(s', j) <= MAX_CREDITS
    {
      RowsStay(s.outbox, s'.outbox, j);
    }
  }

  lemma QueueRows(s: State, k: Key, row: Id, j: Key)
    ensures RowsOf(QueueOne(s, k, row).outbox, j) == RowsOf(s.outbox, j) + if QueueOne(s, k, row) != s && j == k then {row} else {}
    ensures QueueOne(s, k, row) != s ==> row !in s.outbox
  {
  }

  lemma QueuePaid(s: State, k: Key, row: Id)
    requires Paid(s)
    ensures Paid(QueueOne(s, k, row))
  {
    var s' := QueueOne(s, k, row);
    if s' != s {
      forall j
        ensures Credits(s', j) + |RowsOf(s'.outbox, j)| <= Accepts(s', j) && Credits(s', j) <= MAX_CREDITS
      {
        QueueRows(s, k, row, j);
      }
    }
  }

  lemma {:induction false} ConsentsPaid(s: State, user: Id, choices: seq<(Id, bool)>)
    requires Paid(s) && Once(s)
    ensures Paid(ConsentAll(s, user, choices)) && Once(ConsentAll(s, user, choices))
    decreases |choices|
  {
    if choices != [] {
      var n := |choices| - 1;
      ConsentsPaid(s, user, choices[..n]);
      ConsentPaid(ConsentAll(s, user, choices[..n]), (user, choices[n].0), choices[n].1);
    }
  }

  lemma {:induction false} QueuesPaid(s: State, user: Id, kind: Id, templates: seq<Template>, rows: seq<Id>)
    requires Paid(s) && Once(s) && |rows| == |templates|
    ensures Paid(QueueAll(s, user, kind, templates, rows)) && Once(QueueAll(s, user, kind, templates, rows))
    decreases |templates|
  {
    if templates != [] {
      var n := |templates| - 1;
      QueuesPaid(s, user, kind, templates[..n], rows[..n]);
      QueuePaid(QueueAll(s, user, kind, templates[..n], rows[..n]), (user, templates[n].id), rows[n]);
    }
  }

  // Delivery takes no credit back and makes no row.
  lemma DeliveryFrame(s: State, step: Step, k: Key)
    requires !step.Consents? && !step.Queues?
    ensures var s' := Apply(s, step);
      && s'.outbox.Keys == s.outbox.Keys && (forall r :: r in s.outbox ==> s'.outbox[r].key == s.outbox[r].key)
      && s'.accepts == s.accepts && Credits(s', k) <= Credits(s, k)
  {
  }

  lemma DeliveryPaid(s: State, step: Step)
    requires Paid(s) && !step.Consents? && !step.Queues?
    ensures Paid(Apply(s, step))
  {
    var s' := Apply(s, step);
    forall k
      ensures Credits(s', k) + |RowsOf(s'.outbox, k)| <= Accepts(s', k) && Credits(s', k) <= MAX_CREDITS
    {
      DeliveryFrame(s, step, k);
      RowsStay(s.outbox, s'.outbox, k);
    }
  }

  lemma ReserveOnce(s: State, row: Id)
    requires Once(s)
    ensures Once(Reserve(s, row))
  {
  }

  lemma PostOnce(s: State)
    requires Once(s)
    ensures Once(Post(s))
  {
  }

  lemma FinishOnce(s: State, code: Option<int>, zeroed: bool, stored: bool)
    requires Once(s)
    ensures Once(Finish(s, code, zeroed, stored))
  {
  }

  lemma DeliveryOnce(s: State, step: Step)
    requires Once(s) && !step.Consents? && !step.Queues?
    ensures Once(Apply(s, step))
  {
    match step
    case Reserves(row) => ReserveOnce(s, row);
    case Posts => PostOnce(s);
    case Finishes(code, zeroed, stored) => FinishOnce(s, code, zeroed, stored);
    case _ =>
  }

  lemma StepPaid(s: State, step: Step)
    requires Paid(s) && Once(s)
    ensures Paid(Apply(s, step)) && Once(Apply(s, step))
  {
    match step
    case Consents(user, choices) => ConsentsPaid(s, user, choices);
    case Queues(user, kind, templates, rows) => if |rows| == |templates| { QueuesPaid(s, user, kind, templates, rows); }
    case _ => DeliveryPaid(s, step); DeliveryOnce(s, step);
  }

  // Over every run, with restarts anywhere: per user and template, credits plus rows never
  // exceed accepted consents, credits stay within the bound, and no row is posted twice.
  lemma {:induction false} Conserved(steps: seq<Step>, k: Key, row: Id)
    ensures var s := Run(EMPTY, steps);
      && Credits(s, k) + |RowsOf(s.outbox, k)| <= Accepts(s, k) && Credits(s, k) <= MAX_CREDITS
      && s.posts[row] <= 1
  {
    RunPaid(EMPTY, steps);
  }

  lemma {:induction false} RunPaid(s: State, steps: seq<Step>)
    requires Paid(s) && Once(s)
    ensures Paid(Run(s, steps)) && Once(Run(s, steps))
    decreases |steps|
  {
    if steps != [] {
      StepPaid(s, steps[0]);
      RunPaid(Apply(s, steps[0]), steps[1..]);
    }
  }

  // ----- rows only move forward -----

  function Rank(state: SendState): nat {
    match state case Pending => 0 case Sending => 1 case _ => 2
  }

  predicate Forward(a: map<Id, Row>, b: map<Id, Row>) {
    forall r :: r in a ==> r in b && b[r].key == a[r].key && Rank(a[r].state) <= Rank(b[r].state) && (Rank(a[r].state) == 2 ==> b[r] == a[r])
  }

  lemma {:induction false} ConsentsForward(s: State, user: Id, choices: seq<(Id, bool)>)
    ensures Forward(s.outbox, ConsentAll(s, user, choices).outbox)
    decreases |choices|
  {
    if choices != [] { ConsentsForward(s, user, choices[..|choices| - 1]); }
  }

  lemma {:induction false} QueuesForward(s: State, user: Id, kind: Id, templates: seq<Template>, rows: seq<Id>)
    requires |rows| == |templates|
    ensures Forward(s.outbox, QueueAll(s, user, kind, templates, rows).outbox)
    decreases |templates|
  {
    if templates != [] {
      var n := |templates| - 1;
      QueuesForward(s, user, kind, templates[..n], rows[..n]);
    }
  }

  lemma StepForward(s: State, step: Step)
    ensures Forward(s.outbox, Apply(s, step).outbox)
  {
    match step
    case Consents(user, choices) => ConsentsForward(s, user, choices);
    case Queues(user, kind, templates, rows) => if |rows| == |templates| { QueuesForward(s, user, kind, templates, rows); }
    case _ =>
  }

  lemma ForwardOn(a: map<Id, Row>, b: map<Id, Row>, c: map<Id, Row>)
    requires Forward(a, b) && Forward(b, c)
    ensures Forward(a, c)
  {
  }

  // Once being sent, a row is never pending again; once settled it never changes.
  lemma {:induction false} NeverBack(s: State, steps: seq<Step>)
    ensures Forward(s.outbox, Run(s, steps).outbox)
    decreases |steps|
  {
    if steps != [] {
      var s1 := Apply(s, steps[0]);
      StepForward(s, steps[0]);
      NeverBack(s1, steps[1..]);
      ForwardOn(s.outbox, s1.outbox, Run(s, steps).outbox);
    }
  }

  // ----- exactly what each operation writes -----

  predicate DistinctChoices(choices: seq<(Id, bool)>) {
    forall i, j :: 0 <= i < j < |choices| ==> choices[i].0 != choices[j].0
  }

  // One more credit, up to the bound, for every accepted template, none left for a declined one.
  lemma {:induction false} ConsentWrites(s: State, user: Id, choices: seq<(Id, bool)>, i: nat)
    requires DistinctChoices(choices) && i < |choices|
    ensures var s', k := ConsentAll(s, user, choices), (user, choices[i].0);
      && k in s'.consents
      && s'.consents[k] == (
           if !choices[i].1 then Consent(0, false)
           else Consent(if Credits(s, k) < MAX_CREDITS then Credits(s, k) + 1 else MAX_CREDITS, true))
    decreases |choices|
  {
    var n := |choices| - 1;
    var s1 := ConsentAll(s, user, choices[..n]);
    if i < n {
      assert choices[i].0 != choices[n].0 && choices[..n][i] == choices[i];
      ConsentWrites(s, user, choices[..n], i);
    } else {
      ConsentSpares(s, user, choices[..n], (user, choices[n].0));
    }
  }

  // Every other consent is as it was.
  lemma {:induction false} ConsentSpares(s: State, user: Id, choices: seq<(Id, bool)>, k: Key)
    requires forall i :: 0 <= i < |choices| ==> (user, choices[i].0) != k
    ensures var s' := ConsentAll(s, user, choices);
      (k in s'.consents <==> k in s.consents) && (k in s.consents ==> s'.consents[k] == s.consents[k])
    decreases |choices|
  {
    if choices != [] {
      var n := |choices| - 1;
      assert forall i :: 0 <= i < n ==> choices[..n][i] == choices[i];
      ConsentSpares(s, user, choices[..n], k);
    }
  }

  // A declined template loses what was waiting to be sent; nothing else changes in the outbox.
  lemma {:induction false} ConsentOutbox(s: State, user: Id, choices: seq<(Id, bool)>, r: Id)
    requires r in s.outbox
    ensures var s' := ConsentAll(s, user, choices);
      && s'.outbox.Keys == s.outbox.Keys
      && s'.outbox[r] == (
           if s.outbox[r].state.Pending? && exists i :: 0 <= i < |choices| && !choices[i].1 && s.outbox[r].key == (user, choices[i].0)
           then Row(s.outbox[r].key, Failed) else s.outbox[r])
    decreases |choices|
  {
    if choices != [] {
      var n := |choices| - 1;
      assert forall i :: 0 <= i < n ==> choices[..n][i] == choices[i];
      ConsentOutbox(s, user, choices[..n], r);
      if exists i :: 0 <= i < n && !choices[..n][i].1 && s.outbox[r].key == (user, choices[..n][i].0) {
        var i :| 0 <= i < n && !choices[..n][i].1 && s.outbox[r].key == (user, choices[..n][i].0);
        assert !choices[i].1 && s.outbox[r].key == (user, choices[i].0);
      }
    }
  }

  predicate DistinctTemplates(templates: seq<Template>, rows: seq<Id>) {
    && |rows| == |templates|
    && (forall i, j :: 0 <= i < j < |templates| ==> templates[i].id != templates[j].id && rows[i] != rows[j])
  }

  // Whether a message of this template is queued for the user.
  predicate Due(s: State, user: Id, kind: Id, t: Template) {
    t.kind == kind && user in s.identities && (user, t.id) in s.consents
    && s.consents[(user, t.id)].accepted && s.consents[(user, t.id)].credits > 0
  }

  lemma {:induction false} QueueSpares(s: State, user: Id, kind: Id, templates: seq<Template>, rows: seq<Id>, k: Key, r: Id)
    requires |rows| == |templates|
    ensures var s' := QueueAll(s, user, kind, templates, rows);
      && s'.identities == s.identities
      && ((forall i :: 0 <= i < |templates| ==> (user, templates[i].id) != k) ==>
            (k in s'.consents <==> k in s.consents) && (k in s.consents ==> s'.consents[k] == s.consents[k]))
      && ((forall i :: 0 <= i < |rows| ==> rows[i] != r) ==>
            (r in s'.outbox <==> r in s.outbox) && (r in s.outbox ==> s'.outbox[r] == s.outbox[r]))
    decreases |templates|
  {
    if templates != [] {
      var n := |templates| - 1;
      assert forall i :: 0 <= i < n ==> templates[..n][i] == templates[i] && rows[..n][i] == rows[i];
      QueueSpares(s, user, kind, templates[..n], rows[..n], k, r);
    }
  }

  // Each template of the kind with consent and credit left gets one pending row for one credit;
  // no other template gets a row or loses a credit.
  lemma {:induction false} QueueWrites(s: State, user: Id, kind: Id, templates: seq<Template>, rows: seq<Id>, i: nat)
    requires DistinctTemplates(templates, rows) && i < |templates| && rows[i] !in s.outbox
    ensures var s', k := QueueAll(s, user, kind, templates, rows), (user, templates[i].id);
      if Due(s, user, kind, templates[i]) then
        && rows[i] in s'.outbox && s'.outbox[rows[i]] == Row(k, Pending)
        && k in s'.consents && s'.consents[k] == Consent(s.consents[k].credits - 1, true)
      else
        && rows[i] !in s'.outbox
        && (k in s'.consents <==> k in s.consents) && (k in s.consents ==> s'.consents[k] == s.consents[k])
    decreases |templates|
  {
    var n := |templates| - 1;
    var s1 := QueueAll(s, user, kind, templates[..n], rows[..n]);
    assert forall j :: 0 <= j < n ==> templates[..n][j] == templates[j] && rows[..n][j] == rows[j];
    if i < n {
      QueueWrites(s, user, kind, templates[..n], rows[..n], i);
    } else {
      QueueSpares(s, user, kind, templates[..n], rows[..n], (user, templates[n].id), rows[n]);
    }
  }

  // ----- the service -----

  class Service {
    const templates: seq<Template>
    var identities: set<Id>
    var consents: map<Key, Consent>
    var outbox: map<Id, Row>
    ghost var flight: Flight
    ghost var accepts: map<Key, nat>
    ghost var posts: multiset<Id>

    ghost function View(): State
      reads this
    {
      State(identities, consents, outbox, flight, accepts, posts)
    }

    constructor (templates: seq<Template>)
      ensures View() == EMPTY && this.templates == templates
    {
      this.templates := templates;
      identities, consents, outbox, flight, accepts, posts := {}, map[], map[], NoFlight, map[], multiset{};
    }

    // `subscriptionConsent`: all choices or none.
    method RecordConsent(user: Id, choices: seq<(Id, bool)>) returns (ok: bool)
      modifies this
      ensures ok <==> user in old(identities) && ChoicesOk(templates, choices)
      ensures View() == if ok then Apply(old(View()), Consents(user, choices)) else old(View())
    {
      if user !in identities { return false; }
      var newConsents, newOutbox := consents, outbox;
      ghost var s := View();
      var seen: set<Id> := {};
      for i := 0 to |choices|
        invariant seen == set k | 0 <= k < i :: choices[k].0
        invariant ChoicesOk(templates, choices[..i])
        invariant s == ConsentAll(View(), user, choices[..i]) && newConsents == s.consents && newOutbox == s.outbox
        invariant s.identities == identities && s.flight == flight && s.posts == posts
      {
        var (t, accept) := choices[i];
        if t in seen || !(exists x :: x in templates && x.id == t) {
          return false;
        }
        seen := seen + {t};
        var k := (user, t);
        if accept {
          var c := if k in newConsents then newConsents[k].credits else 0;
          newConsents := newConsents[k := Consent(if c < MAX_CREDITS then c + 1 else MAX_CREDITS, true)];
        } else {
          newConsents := newConsents[k := Consent(0, false)];
          newOutbox := FailPending(newOutbox, k);
        }
        assert choices[..i + 1][..i] == choices[..i];
        s := ConsentOne(s, k, accept);
      }
      assert choices[..|choices|] == choices;
      consents, outbox, accepts := newConsents, newOutbox, s.accepts;
      return true;
    }

    // `queueSubscription`.
    method Queue(user: Id, kind: Id, rows: seq<Id>)
      requires |rows| == |templates|
      modifies this
      ensures View() == Apply(old(View()), Queues(user, kind, templates, rows))
    {
      for i := 0 to |templates|
        invariant View() == QueueAll(old(View()), user, kind, templates[..i], rows[..i])
      {
        assert templates[..i + 1][..i] == templates[..i] && rows[..i + 1][..i] == rows[..i];
        var k := (user, templates[i].id);
        if templates[i].kind == kind
          && k in consents && consents[k].accepted && consents[k].credits > 0 && user in identities && rows[i] !in outbox
        {
          consents := consents[k := consents[k].(credits := consents[k].credits - 1)];
          outbox := outbox[rows[i] := Row(k, Pending)];
        }
      }
      assert templates[..|templates|] == templates && rows[..|rows|] == rows;
    }

    // What is written after the answer.
    method Answer(row: Id, code: Option<int>, zeroed: bool, stored: bool)
      requires flight == Posted(row) && row in outbox && outbox[row].state.Sending? && outbox[row].key in consents
      modifies this`consents, this`outbox, this`flight
      ensures View() == Finish(old(View()), code, zeroed, stored)
    {
      var k := outbox[row].key;
      var state := Unknown;
      if code.Some? {
        state := if code.value == 0 then Sent else Failed;
        if code.value == 43101 && zeroed {
          consents := consents[k := consents[k].(credits := 0)];
        }
      }
      if stored { outbox := outbox[row := outbox[row].(state := state)]; }
      flight := NoFlight;
    }

    // `deliverSubscription` for the row its query finds: the reservation is committed before
    // the network call, and its outcome after. `open` tells whether the token was obtained, the
    // user still has access and the history is not purged.
    method Deliver(row: Id, open: bool, code: Option<int>, zeroed: bool, stored: bool)
      requires flight.NoFlight?
      modifies this
      ensures View() == if open && Deliverable(old(View()), row)
        then Finish(Post(Reserve(old(View()), row)), code, zeroed, stored) else old(View())
      ensures flight.NoFlight?
      // Posted once; sent exactly if the answer is code 0, failed by any other code, unknown
      // without an answer; and code 43101 takes the credits.
      ensures (open && row in old(outbox) && old(outbox)[row].state.Pending? && old(outbox)[row].key in old(consents)
               && old(consents)[old(outbox)[row].key].accepted && old(outbox)[row].key.0 in old(identities)) ==>
        var k := old(outbox)[row].key;
        && posts == old(posts) + multiset{row}
        && outbox == old(outbox)[row := Row(k,
             if !stored then Sending else if code == Some(0) then Sent else if code.Some? then Failed else Unknown)]
        && consents == if code == Some(43101) && zeroed then old(consents)[k := Consent(0, old(consents)[k].accepted)] else old(consents)
    {
      if !open || !(row in outbox && outbox[row].state.Pending? && outbox[row].key in consents
                    && consents[outbox[row].key].accepted && outbox[row].key.0 in identities)
      {
        return;
      }
      outbox := outbox[row := outbox[row].(state := Sending)];
      flight := Reserved(row);
      flight, posts := Posted(row), posts + multiset{row};
      Answer(row, code, zeroed, stored);
    }

    // The first statement of `subscriptionLoop` after a start of the process.
    method Resume()
      modifies this
      ensures View() == Restart(old(View()))
      ensures outbox.Keys == old(outbox).Keys && consents == old(consents) && posts == old(posts)
      ensures forall r :: r in outbox ==>
        outbox[r] == if old(outbox)[r].state.Sending? then Row(old(outbox)[r].key, Unknown) else old(outbox)[r]
    {
      outbox := map r | r in outbox :: if outbox[r].state.Sending? then outbox[r].(state := Unknown) else outbox[r];
      flight := NoFlight;
    }
  }
}
