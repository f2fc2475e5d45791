// Interaction requests: which ones are well posed, which decisions answer them, and that a
// well-posed request can always be answered.
module Questions {
  import opened Basics

  datatype Question =
    | Text(id: string, required: bool, maxLength: nat)
    | Single(id: string, required: bool, options: seq<string>)
    | Multiple(id: string, required: bool, options: seq<string>, max: nat)

  datatype Request = Approval(choices: seq<string>) | Questionnaire(questions: seq<Question>)

  // A JSON value given as an answer, and one inside a list.
  datatype Entry = Name(text: string) | NoName
  datatype Answer = Line(text: string) | Many(entries: seq<Entry>) | Neither

  datatype Decision = Choice(choice: string) | Answers(answers: map<string, Answer>)

  // ----- the bounds of the schema -----

  function OptionsOf(q: Question): seq<string> {
    if q.Text? then [] else q.options
  }

  predicate InBounds(r: Request) {
    match r
    case Approval(choices) => 1 <= |choices| <= 10
    case Questionnaire(questions) =>
      && 1 <= |questions| <= 20
      && forall i :: 0 <= i < |questions| ==> QuestionInBounds(questions[i])
  }

  predicate QuestionInBounds(q: Question) {
    match q
    case Text(_, _, maxLength) => 1 <= maxLength <= 4000
    case Single(_, _, options) => 1 <= |options| <= 20
    case Multiple(_, _, options, max) => 1 <= |options| <= 20 && 1 <= max <= 20
  }

  // ----- well-posed requests -----

  predicate Distinct(names: seq<string>) {
    forall i, j :: 0 <= i < j < |names| ==> names[i] != names[j]
  }

  function IdsOf(questions: seq<Question>): seq<string> {
    seq(|questions|, i requires 0 <= i < |questions| => questions[i].id)
  }

  predicate WellPosed(r: Request) {
    match r
    case Approval(choices) => Distinct(choices)
    case Questionnaire(questions) =>
      && Distinct(IdsOf(questions))
      && forall i :: 0 <= i < |questions| ==> QuestionOk(questions[i])
  }

  predicate QuestionOk(q: Question) {
    Distinct(OptionsOf(q)) && (q.Multiple? ==> q.max <= |q.options|)
  }

  method Unique(names: seq<string>) returns (ok: bool)
    ensures ok <==> Distinct(names)
  {
    var seen: set<string> := {};
    for i := 0 to |names|
      invariant Distinct(names[..i]) && seen == set k | 0 <= k < i :: names[k]
    {
      if names[i] in seen { return false; }
      seen := seen + {names[i]};
    }
    assert names[..|names|] == names;
    return true;
  }

  // `validateQuestions`.
  method ValidateQuestions(r: Request) returns (ok: bool)
    ensures ok <==> WellPosed(r)
  {
    match r
    case Approval(choices) => ok := Unique(choices);
    case Questionnaire(questions) =>
      ok := Unique(IdsOf(questions));
      if !ok { return; }
      for i := 0 to |questions|
        invariant forall k :: 0 <= k < i ==> QuestionOk(questions[k])
      {
        var q := questions[i];
        var distinct := Unique(OptionsOf(q));
        if !distinct || (q.Multiple? && q.max > |q.options|) {
          assert !QuestionOk(questions[i]);
          return false;
        }
      }
      return true;
  }

  // ----- accepted decisions -----

  // The white space that is trimmed.
  predicate Space(c: char) {
    c in {'\t', '\n', '\U{000B}', '\U{000C}', '\r', ' ', '\U{0085}', '\U{00A0}', '\U{1680}', '\U{2028}', '\U{2029}', '\U{202F}', '\U{205F}', '\U{3000}'}
    || '\U{2000}' <= c <= '\U{200A}'
  }

  predicate Blank(text: string) {
    forall i :: 0 <= i < |text| ==> Space(text[i])
  }

  function Trimmed(text: string): (r: string)
    ensures r == "" <==> Blank(text)
    decreases |text|
  {
    if text == "" then ""
    else if Space(text[0]) then Trimmed(text[1..])
    else if Space(text[|text| - 1]) then Trimmed(text[..|text| - 1])
    else text
  }

  // The entries are distinct options.
  predicate Picks(entries: seq<Entry>, options: seq<string>) {
    && (forall i :: 0 <= i < |entries| ==> entries[i].Name? && entries[i].text in options)
    && (forall i, j :: 0 <= i < j < |entries| ==> entries[i] != entries[j])
  }

  predicate AnswerOk(q: Question, a: Answer) {
    match q
    case Text(_, required, maxLength) => a.Line? && |a.text| <= maxLength && (required ==> !Blank(a.text))
    case Single(_, required, options) => a.Line? && (a.text in options || (!required && a.text == ""))
    case Multiple(_, required, options, max) => a.Many? && |a.entries| <= max && (required ==> a.entries != []) && Picks(a.entries, options)
  }

  predicate AnsweredBy(q: Question, answers: map<string, Answer>) {
    if q.id in answers then AnswerOk(q, answers[q.id]) else !q.required
  }

  // Question by question, and nothing else answered.
  predicate Accepted(r: Request, d: Decision) {
    match r
    case Approval(choices) => d.Choice? && d.choice in choices
    case Questionnaire(questions) =>
      && d.Answers?
      && (forall i :: 0 <= i < |questions| ==> AnsweredBy(questions[i], d.answers))
      && (forall k :: k in d.answers ==> k in IdsOf(questions))
  }

  method ValidatePicks(entries: seq<Entry>, options: seq<string>) returns (ok: bool)
    ensures ok <==> Picks(entries, options)
  {
    var seen: set<string> := {};
    for i := 0 to |entries|
      invariant Picks(entries[..i], options) && forall t :: t in seen <==> exists k :: 0 <= k < i && entries[k] == Name(t)
    {
      var e := entries[i];
      if !e.Name? || e.text !in options || e.text in seen { return false; }
      seen := seen + {e.text};
    }
    assert entries[..|entries|] == entries;
    return true;
  }

  method ValidateAnswer(q: Question, a: Answer) returns (ok: bool)
    ensures ok <==> AnswerOk(q, a)
  {
    match q
    case Text(_, required, maxLength) =>
      if !a.Line? || |a.text| > maxLength { return false; }
      return !(required && Trimmed(a.text) == "");
    case Single(_, required, options) =>
      return a.Line? && !(a.text !in options && (required || a.text != ""));
    case Multiple(_, required, options, max) =>
      if !a.Many? || |a.entries| > max || (required && |a.entries| == 0) { return false; }
      ok := ValidatePicks(a.entries, options);
  }

  // `validateDecision`.
  method ValidateDecision(r: Request, d: Decision) returns (ok: bool)
    ensures ok <==> Accepted(r, d)
  {
    match r
    case Approval(choices) =>
      if !d.Choice? { return false; }
      for i := 0 to |choices|
        invariant forall k :: 0 <= k < i ==> choices[k] != d.choice
      {
        if choices[i] == d.choice { return true; }
      }
      return false;
    case Questionnaire(questions) =>
      if !d.Answers? { return false; }
      var known: set<string> := {};
      for i := 0 to |questions|
        invariant forall k :: 0 <= k < i ==> AnsweredBy(questions[k], d.answers)
        invariant known == set k | 0 <= k < i :: questions[k].id
      {
        var q := questions[i];
        known := known + {q.id};
        if q.id !in d.answers {
          if q.required { return false; }
        } else {
          var fine := ValidateAnswer(q, d.answers[q.id]);
          if !fine { return false; }
        }
      }
      assert forall k :: k in known <==> k in IdsOf(questions) by {
        assert forall i :: 0 <= i < |questions| ==> IdsOf(questions)[i] == questions[i].id;
      }
      var left := d.answers.Keys;
      while left != {}
        invariant left <= d.answers.Keys && forall k :: k in d.answers && k !in left ==> k in known
        decreases |left|
      {
        var k :| k in left;
        if k !in known { return false; }
        left := left - {k};
      }
      return true;
  }

  // ----- answerability -----

  function SomeAnswer(q: Question): (a: Answer)
    requires QuestionInBounds(q)
    ensures AnswerOk(q, a)
  {
    match q
    case Text(_, _, _) => assert !Blank("x") by { assert !Space("x"[0]); } Line("x")
    case Single(_, _, options) => Line(options[0])
    case Multiple(_, _, options, _) => Many([Name(options[0])])
  }

  function SomeAnswers(questions: seq<Question>): (m: map<string, Answer>)
    requires forall i :: 0 <= i < |questions| ==> QuestionInBounds(questions[i])
  {
    if questions == [] then map[]
    else SomeAnswers(questions[..|questions| - 1])[questions[|questions| - 1].id := SomeAnswer(questions[|questions| - 1])]
  }

  lemma {:induction false} SomeAnswersFit(questions: seq<Question>)
    requires Distinct(IdsOf(questions)) && forall i :: 0 <= i < |questions| ==> QuestionInBounds(questions[i])
    ensures forall i :: 0 <= i < |questions| ==> questions[i].id in SomeAnswers(questions) && AnswerOk(questions[i], SomeAnswers(questions)[questions[i].id])
    ensures forall k :: k in SomeAnswers(questions) ==> k in IdsOf(questions)
    decreases |questions|
  {
    if questions != [] {
      var n := |questions| - 1;
      var front := questions[..n];
      assert IdsOf(front) == IdsOf(questions)[..n];
      SomeAnswersFit(front);
      forall i | 0 <= i < n
        ensures questions[i].id in SomeAnswers(questions) && AnswerOk(questions[i], SomeAnswers(questions)[questions[i].id])
      {
        assert front[i] == questions[i] && IdsOf(questions)[i] != IdsOf(questions)[n];
      }
      assert IdsOf(questions)[n] == questions[n].id;
    }
  }

  // Every request within the schema's bounds that passes validation has an accepted decision.
  lemma Answerable(r: Request) returns (d: Decision)
    requires InBounds(r) && WellPosed(r)
    ensures Accepted(r, d)
  {
    match r
    case Approval(choices) => d := Choice(choices[0]);
    case Questionnaire(questions) =>
      SomeAnswersFit(questions);
      d := Answers(SomeAnswers(questions));
  }

  // Without the check for repeated ids there would be requests no decision answers.
  lemma RepeatedId(d: Decision)
    ensures var r := Questionnaire([Text("q", true, 10), Multiple("q", true, ["a"], 1)]);
      InBounds(r) && !WellPosed(r) && !Accepted(r, d)
  {
    var questions := [Text("q", true, 10), Multiple("q", true, ["a"], 1)];
    assert IdsOf(questions)[0] == IdsOf(questions)[1];
    assert AnsweredBy(questions[0], map[]) == false;
    if d.Answers? && AnsweredBy(questions[0], d.answers) { assert !AnsweredBy(questions[1], d.answers); }
  }

  // ----- kind by kind -----

  // A request is well posed exactly if nothing in it is named twice and no question asks for
  // more options than it has.
  lemma PosedExactly(questions: seq<Question>)
    ensures WellPosed(Questionnaire(questions)) <==>
      && (forall i, j :: 0 <= i < j < |questions| ==> questions[i].id != questions[j].id)
      && (forall k, i, j :: 0 <= k < |questions| && !questions[k].Text? && 0 <= i < j < |questions[k].options| ==>
            questions[k].options[i] != questions[k].options[j])
      && (forall k :: 0 <= k < |questions| && questions[k].Multiple? ==> questions[k].max <= |questions[k].options|)
  {
    assert forall i :: 0 <= i < |questions| ==> IdsOf(questions)[i] == questions[i].id;
    if forall k :: 0 <= k < |questions| ==> QuestionOk(questions[k]) {
      forall k, i, j | 0 <= k < |questions| && !questions[k].Text? && 0 <= i < j < |questions[k].options|
        ensures questions[k].options[i] != questions[k].options[j]
      {
        assert QuestionOk(questions[k]);
      }
    }
  }

  lemma TextAnswer(id: string, required: bool, maxLength: nat, a: Answer)
    ensures AnswerOk(Text(id, required, maxLength), a) <==>
      a.Line? && |a.text| <= maxLength && (required ==> exists i :: 0 <= i < |a.text| && !Space(a.text[i]))
  {
  }

  lemma SingleAnswer(id: string, required: bool, options: seq<string>, a: Answer)
    ensures AnswerOk(Single(id, required, options), a) <==> a.Line? && (a.text in options || (a.text == "" && !required))
  {
  }

  lemma MultipleAnswer(id: string, required: bool, options: seq<string>, max: nat, a: Answer)
    ensures AnswerOk(Multiple(id, required, options, max), a) <==>
      && a.Many? && |a.entries| <= max && (required ==> |a.entries| > 0)
      && (forall i :: 0 <= i < |a.entries| ==> a.entries[i].Name? && a.entries[i].text in options)
      && (forall i, j :: 0 <= i < j < |a.entries| ==> a.entries[i] != a.entries[j])
  {
  }
}
