/** What an answer is worth, item by item: the exact marks of each kind of question, of a
    whole run, and of the development grader's verdicts. */
module AnswerMarks {
  import opened Wrappers
  import opened Sorting
  import opened Questions
  import opened Grading
  import opened TrustedEvidence
  import opened Submission
  import opened GradableContent
  import opened Rounding

  // ----- Choices -----

  /** `v` is a text that is not blank, and reads `form` when trimmed and in lower case. */
  predicate Reads(v: Value, form: string) { v.Str? && Lower(Trim(v.text)) == form && form != "" }

  /** Some item reads `form`. */
  predicate Holds(values: seq<Value>, form: string) { exists i :: 0 <= i < |values| && Reads(values[i], form) }

  lemma NormalizedHolds(values: seq<Value>, form: string)
    ensures form in NormalizedSet(values) <==> Holds(values, form)
  {
    if form in NormalizedSet(values) {
      var v :| v in values && v.Str? && Normal(v.text) != "" && Normal(v.text) == form;
      var i :| 0 <= i < |values| && values[i] == v;
      assert Reads(values[i], form);
    }
    if i :| 0 <= i < |values| && Reads(values[i], form) {
      assert values[i] in values;
    }
  }

  /** Both lists read the same, in any order and however often, and not nothing. */
  ghost predicate SameForms(key: seq<Value>, given: seq<Value>) {
    (exists form :: Holds(key, form)) && forall form :: Holds(key, form) <==> Holds(given, form)
  }

  lemma SameFormsIff(key: seq<Value>, given: seq<Value>)
    ensures SameForms(key, given) <==> NormalizedSet(key) != {} && NormalizedSet(key) == NormalizedSet(given)
  {
    var expected, actual := NormalizedSet(key), NormalizedSet(given);
    forall form
      ensures form in expected <==> Holds(key, form)
      ensures form in actual <==> Holds(given, form)
    {
      NormalizedHolds(key, form);
      NormalizedHolds(given, form);
    }
    if form :| Holds(key, form) { assert form in expected; }
    if form :| form in expected { assert Holds(key, form); }
    assert expected == actual <==> forall form :: Holds(key, form) <==> Holds(given, form);
  }

  /** Full marks exactly for a list that reads the same as the key: one wrong item or one
      missing item, and nothing is earned. */
  lemma MultipleChoiceMarks(q: Question, values: seq<Value>, evidence: Option<Evidence>)
    requires q.kind == MultipleChoice && PointsValue(q.points) > 0
    ensures GradeQuestion(q, ListResponse(values), evidence).awarded
         == if q.key.optionIds.Some? && SameForms(q.key.optionIds.value, values) then PointsValue(q.points) else 0
  {
    if q.key.optionIds.Some? { SameFormsIff(q.key.optionIds.value, values); }
  }

  /** An option that the key does not name spoils the answer. */
  lemma WrongOptionEarnsNothing(q: Question, values: seq<Value>, evidence: Option<Evidence>, form: string)
    requires q.kind == MultipleChoice && PointsValue(q.points) > 0 && q.key.optionIds.Some?
    requires Holds(values, form) != Holds(q.key.optionIds.value, form)
    ensures GradeQuestion(q, ListResponse(values), evidence).awarded == 0
  {
    MultipleChoiceMarks(q, values, evidence);
  }

  /** Full marks exactly for a text that reads like every text of the key, of which there
      must be one. The older `accepted` list stands in for missing option identifiers. */
  lemma SingleChoiceMarks(q: Question, text: string, evidence: Option<Evidence>)
    requires q.kind == SingleChoice && PointsValue(q.points) > 0
    ensures var key := if q.key.optionIds.Some? then q.key.optionIds.value
                       else if q.key.accepted.Some? then q.key.accepted.value else [];
            var same := Holds(key, Lower(Trim(text))) && forall form :: Holds(key, form) ==> form == Lower(Trim(text));
            && (same ==> GradeQuestion(q, TextResponse(text), evidence).awarded == PointsValue(q.points))
            && (!same ==> GradeQuestion(q, TextResponse(text), evidence).awarded == 0)
  {
    var key := if q.key.optionIds.Some? then q.key.optionIds.value
               else if q.key.accepted.Some? then q.key.accepted.value else [];
    var accepted, form := NormalizedSet(key), Lower(Trim(text));
    forall other ensures other in accepted <==> Holds(key, other) { NormalizedHolds(key, other); }
    OnlyMember(accepted, form);
    assert ChoiceKey(q.key) == key;
    assert Matches(q, TextResponse(text)) <==> |accepted| == 1 && form in accepted;
  }

  lemma OnlyMember(s: set<string>, x: string)
    ensures |s| == 1 && x in s <==> x in s && forall y :: y in s ==> y == x
  {
    if x in s {
      assert s == {x} + (s - {x});
      assert |s| == 1 <==> s - {x} == {};
      assert forall y :: y in s && y != x ==> y in s - {x};
    }
    if x in s && forall y :: y in s ==> y == x { assert s == {x}; }
  }

  /** A list where a text is asked for, a text where a list is, or no answer at all. */
  lemma WrongShapeEarnsNothing(q: Question, response: Response, evidence: Option<Evidence>)
    requires PointsValue(q.points) > 0
    requires (q.kind == MultipleChoice && !response.ListResponse?) || (q.kind == SingleChoice && !response.TextResponse?)
    ensures GradeQuestion(q, response, evidence).awarded == 0
  {
    assert NormalizedSet([]) == {};
  }

  /** A core that neither begins nor ends with space, with nothing but space around it. */
  predicate Padding(space: char -> bool, before: string, core: string, after: string) {
    && (forall i :: 0 <= i < |before| ==> space(before[i])) && (forall i :: 0 <= i < |after| ==> space(after[i]))
    && core != "" && !space(core[0]) && !space(core[|core| - 1])
  }

  lemma {:induction false} TrimmedFront(space: char -> bool, before: string, rest: string)
    requires forall i :: 0 <= i < |before| ==> space(before[i])
    ensures TrimBy(before + rest, space) == TrimBy(rest, space)
  {
    if before == "" {
      assert before + rest == rest;
    } else {
      assert (before + rest)[0] == before[0] && (before + rest)[1..] == before[1..] + rest;
      TrimmedFront(space, before[1..], rest);
    }
  }

  lemma {:induction false} TrimmedBack(space: char -> bool, core: string, after: string)
    requires forall i :: 0 <= i < |after| ==> space(after[i])
    requires core != "" && !space(core[0]) && !space(core[|core| - 1])
    ensures TrimBy(core + after, space) == core
    decreases |after|
  {
    if after == "" {
      assert core + after == core;
    } else {
      var s, shorter := core + after, after[..|after| - 1];
      assert s[0] == core[0] && s[|s| - 1] == after[|after| - 1] && s[..|s| - 1] == core + shorter;
      TrimmedBack(space, core, shorter);
    }
  }

  lemma TrimmedBy(space: char -> bool, before: string, core: string, after: string)
    requires Padding(space, before, core, after)
    ensures TrimBy(before + core + after, space) == core
  {
    assert before + core + after == before + (core + after);
    TrimmedFront(space, before, core + after);
    TrimmedBack(space, core, after);
  }

  /** White space around a text does not count, neither for JavaScript nor for Python. */
  lemma BlanksDoNotCount(before: string, core: string, after: string)
    ensures Padding(IsSpace, before, core, after) ==> Trim(before + core + after) == core
    ensures Padding(PySpace, before, core, after) ==> Strip(before + core + after) == core
  {
    if Padding(IsSpace, before, core, after) { TrimmedBy(IsSpace, before, core, after); }
    if Padding(PySpace, before, core, after) { TrimmedBy(PySpace, before, core, after); }
  }

  lemma BlanksAndCase()
    ensures IsSpace(' ') && IsSpace('\t') && IsSpace('\n') && !IsSpace('a') && !IsSpace('0') && !IsSpace('.')
    ensures PySpace(' ') && PySpace('\t') && PySpace('\n') && !PySpace('a') && !PySpace('0')
    ensures Lower("ABZ-a9z") == "abz-a9z" && Upper("abz-A9Z") == "ABZ-A9Z"
  {}

  // ----- Techniques -----

  predicate Digits(s: string, from: nat, to: nat)
    requires from <= to <= |s|
  {
    forall i :: from <= i < to ==> 0x30 <= s[i] as int <= 0x39
  }

  /** T and four digits, then possibly a dot and three more. */
  predicate AttackId(s: string) {
    && (|s| == 5 || |s| == 9) && s[0] == 'T' && Digits(s, 1, 5)
    && (|s| == 9 ==> s[5] == '.' && Digits(s, 6, 9))
  }

  predicate Names(v: Value, technique: string) { v.Str? && Upper(Trim(v.text)) == technique && AttackId(technique) }

  predicate NamesSome(values: seq<Value>, technique: string) { exists i :: 0 <= i < |values| && Names(values[i], technique) }

  lemma AttackIdIs(s: string)
    ensures AttackId(s) <==> Technique(s)
  {}

  lemma TechniquesNamed(values: seq<Value>, technique: string)
    ensures technique in NormalizedTechniques(values) <==> NamesSome(values, technique)
  {
    AttackIdIs(technique);
    if technique in NormalizedTechniques(values) {
      var v :| v in values && v.Str? && Technique(Upper(Trim(v.text))) && Upper(Trim(v.text)) == technique;
      var i :| 0 <= i < |values| && values[i] == v;
      assert Names(values[i], technique);
    }
    if i :| 0 <= i < |values| && Names(values[i], technique) { assert values[i] in values; }
  }

  /** What a response lists: its items, or its text as the only item. */
  function Listed(response: Response): seq<Value> {
    match response
    case TextResponse(text) => [Str(text)]
    case ListResponse(values) => values
    case _ => []
  }

  /** Both lists name the same techniques, and some. */
  ghost predicate SameTechniques(key: seq<Value>, given: seq<Value>) {
    (exists t :: NamesSome(key, t)) && forall t :: NamesSome(key, t) <==> NamesSome(given, t)
  }

  lemma SameTechniquesIff(key: seq<Value>, given: seq<Value>)
    ensures SameTechniques(key, given) <==> NormalizedTechniques(key) != {} && NormalizedTechniques(key) == NormalizedTechniques(given)
  {
    var expected, actual := NormalizedTechniques(key), NormalizedTechniques(given);
    forall t
      ensures t in expected <==> NamesSome(key, t)
      ensures t in actual <==> NamesSome(given, t)
    {
      TechniquesNamed(key, t);
      TechniquesNamed(given, t);
    }
    if t :| NamesSome(key, t) { assert t in expected; }
    if t :| t in expected { assert NamesSome(key, t); }
    assert expected == actual <==> forall t :: NamesSome(key, t) <==> NamesSome(given, t);
  }

  /** Full marks exactly for naming the key's techniques, all of them and no other. */
  lemma TechniqueMarks(q: Question, response: Response, evidence: Option<Evidence>)
    requires q.kind == MitreAttack && PointsValue(q.points) > 0
    ensures GradeQuestion(q, response, evidence).awarded
         == if SameTechniques(q.key.techniqueIds, Listed(response)) then PointsValue(q.points) else 0
  {
    SameTechniquesIff(q.key.techniqueIds, Listed(response));
    assert Listed(response) == if response.TextResponse? then [Str(response.text)] else ListOf(response);
  }

  // ----- External grades -----

  /** Evidence counts when it comes from the right grader, names its policy and its
      reference, and its ratio is one. */
  predicate Counts(kind: QuestionType, e: Evidence) {
    && ((kind == ElkSearch && e.source == Elk) || (kind == FreeText && e.source == AiRubric))
    && Trim(e.policyVersion) != "" && Trim(e.reference) != "" && 0.0 <= e.scoreRatio <= 1.0
  }

  /** An external grade is the rounded share of the points when the evidence counts and
      passed, and nothing otherwise; the response itself does not matter. */
  lemma ExternalMarks(q: Question, response: Response, evidence: Option<Evidence>)
    requires (q.kind == ElkSearch || q.kind == FreeText) && PointsValue(q.points) > 0
    ensures var g := GradeQuestion(q, response, evidence);
            if evidence.Some? && Counts(q.kind, evidence.value) && evidence.value.passed
            then var exact := PointsValue(q.points) as real * evidence.value.scoreRatio;
                 exact - 0.5 < g.awarded as real <= exact + 0.5
            else g.awarded == 0
  {}

  // ----- Whole runs -----

  /** Each question is graded by the answer and the evidence that carry its identifier. */
  lemma GradesEach(questions: seq<Question>, answers: seq<Answer>, evidence: seq<Evidence>, passScore: real, i: nat)
    requires GradeRun(questions, answers, evidence, passScore).Ok? && i < |questions|
    ensures var run := GradeRun(questions, answers, evidence, passScore).value;
            && |run.grades| == |questions| && PointsValue(questions[i].points) > 0
            && exists response, support ::
                 && run.grades[i] == GradeQuestion(questions[i], response, support)
                 && AnswersWith(answers, questions[i].id, response) && SupportsWith(evidence, questions[i].id, support)
  {
    GradeRunTotals(questions, answers, evidence, passScore);
    var id := questions[i].id;
    var response, support := ResponseTo(answers, id), EvidenceFor(evidence, id);
    assert Scorable(questions[i]);
    ByIdKeys(AnswerIds(answers), answers);
    ByIdKeys(EvidenceIds(evidence), evidence);
    forall k | 0 <= k < |answers| && answers[k].questionId == id ensures response == answers[k].response {
      ByIdRow(AnswerIds(answers), answers, k);
    }
    forall k | 0 <= k < |evidence| && evidence[k].questionId == id ensures support == Some(evidence[k]) {
      ByIdRow(EvidenceIds(evidence), evidence, k);
    }
    assert AnswersWith(answers, id, response) by {
      if forall k :: 0 <= k < |answers| ==> answers[k].questionId != id { assert id !in AnswerIds(answers); }
    }
    assert SupportsWith(evidence, id, support) by {
      if forall k :: 0 <= k < |evidence| ==> evidence[k].questionId != id { assert id !in EvidenceIds(evidence); }
    }
    assert GradeRun(questions, answers, evidence, passScore).value.grades[i] == GradeQuestion(questions[i], response, support);
  }

  ghost predicate AnswersWith(answers: seq<Answer>, id: string, response: Response) {
    && (forall k :: 0 <= k < |answers| && answers[k].questionId == id ==> response == answers[k].response)
    && ((forall k :: 0 <= k < |answers| ==> answers[k].questionId != id) ==> response == NoResponse)
  }

  ghost predicate SupportsWith(evidence: seq<Evidence>, id: string, support: Option<Evidence>) {
    && (forall k :: 0 <= k < |evidence| && evidence[k].questionId == id ==> support == Some(evidence[k]))
    && ((forall k :: 0 <= k < |evidence| ==> evidence[k].questionId != id) ==> support == None)
  }

  /** The points of the first `n` grades. */
  function PointsSoFar(grades: seq<QuestionGrade>, n: nat): (int, int)
    requires n <= |grades|
  {
    if n == 0 then (0, 0)
    else
      var earlier := PointsSoFar(grades, n - 1);
      (earlier.0 + grades[n - 1].awarded, earlier.1 + grades[n - 1].maximum)
  }

  lemma {:induction false} TotalsAre(grades: seq<QuestionGrade>, n: nat)
    requires n <= |grades|
    ensures PointsSoFar(grades, n) == (Awarded(grades[..n]), Maximum(grades[..n]))
  {
    if n > 0 {
      TotalsAre(grades, n - 1);
      assert grades[..n][..n - 1] == grades[..n - 1];
    }
  }

  /** The score is the rounded percentage of all points, and passing is reaching the pass
      score. */
  lemma ScoreMeans(questions: seq<Question>, answers: seq<Answer>, evidence: seq<Evidence>, passScore: real)
    requires GradeRun(questions, answers, evidence, passScore).Ok? && questions != []
    ensures var run := GradeRun(questions, answers, evidence, passScore).value;
            && (run.awarded, run.maximum) == PointsSoFar(run.grades, |run.grades|) && run.maximum > 0
            && (var exact := run.awarded as real / run.maximum as real * 100.0;
                exact - 0.5 < run.score as real <= exact + 0.5)
            && (run.passed <==> run.score as real >= passScore)
  {
    GradeRunTotals(questions, answers, evidence, passScore);
    var grades := GradeRun(questions, answers, evidence, passScore).value.grades;
    TotalsAre(grades, |grades|);
    assert grades[..|grades|] == grades;
  }

  // ----- Skills -----

  /** The points of the grades of some kinds. */
  function PointsOf(grades: seq<QuestionGrade>, kinds: set<QuestionType>): SkillTotal {
    if grades == [] then SkillTotal(0, 0)
    else
      var earlier, last := PointsOf(grades[..|grades| - 1], kinds), grades[|grades| - 1];
      if last.kind in kinds then SkillTotal(earlier.points + last.awarded, earlier.maxPoints + last.maximum) else earlier
  }

  /** Searches train investigation, techniques attack mapping, both choices red team
      execution, and texts analysis. */
  lemma {:induction false} SkillsByKind(grades: seq<QuestionGrade>)
    ensures SkillTotals(grades, ElkInvestigation) == PointsOf(grades, {ElkSearch})
    ensures SkillTotals(grades, AttackMapping) == PointsOf(grades, {MitreAttack})
    ensures SkillTotals(grades, RedTeamExecution) == PointsOf(grades, {SingleChoice, MultipleChoice})
    ensures SkillTotals(grades, Analysis) == PointsOf(grades, {FreeText})
  {
    if grades != [] { SkillsByKind(grades[..|grades| - 1]); }
  }

  // ----- The development grader -----

  predicate Finds(values: seq<Value>, id: string) {
    exists i :: 0 <= i < |values| && values[i].Str? && values[i].text == id && Identifier(id, 128)
  }

  lemma IdentifiersFound(values: seq<Value>, id: string)
    ensures id in EventIdentifiers(values) <==> Finds(values, id)
  {
    if id in EventIdentifiers(values) {
      var v :| v in values && v.Str? && Identifier(v.text, 128) && v.text == id;
      var i :| 0 <= i < |values| && values[i] == v;
    }
    if i :| 0 <= i < |values| && values[i].Str? && values[i].text == id && Identifier(id, 128) { assert values[i] in values; }
  }

  /** A search passes exactly when it has a query and finds just the expected events, of
      which there are some, all of them in the lab's telemetry. */
  lemma SearchMarks(q: Question, query: string, found: seq<Value>, telemetry: set<string>)
    ensures SearchPasses(q, SearchResponse(query, found), telemetry) <==>
              && Trim(query) != ""
              && (exists id :: Finds(q.key.expectedEvidenceIds, id))
              && (forall id :: Finds(q.key.expectedEvidenceIds, id) <==> Finds(found, id))
              && (forall id :: Finds(found, id) ==> id in telemetry)
    ensures forall response: Response :: !response.SearchResponse? ==> !SearchPasses(q, response, telemetry)
  {
    var submitted, expected := EventIdentifiers(found), EventIdentifiers(q.key.expectedEvidenceIds);
    forall id
      ensures id in submitted <==> Finds(found, id)
      ensures id in expected <==> Finds(q.key.expectedEvidenceIds, id)
    {
      IdentifiersFound(found, id);
      IdentifiersFound(q.key.expectedEvidenceIds, id);
    }
    if id :| Finds(q.key.expectedEvidenceIds, id) { assert id in expected; }
    if id :| id in expected { assert Finds(q.key.expectedEvidenceIds, id); }
    assert submitted == expected <==> forall id :: Finds(q.key.expectedEvidenceIds, id) <==> Finds(found, id);
    assert submitted <= telemetry <==> forall id :: Finds(found, id) ==> id in telemetry;
  }

  /** The one verdict on an externally graded question: what it is about, whether it
      passed, and its ratio. An essay earns all from 80 trimmed characters on, half from
      40 on, and nothing below. */
  lemma VerdictMeans(q: Question, answers: seq<Answer>, telemetry: set<string>, runId: string)
    ensures q.kind == ElkSearch ==>
              exists e :: Verdict(q, answers, telemetry, runId) == [e] && e.questionId == q.id && e.source == Elk
                          && (e.passed <==> SearchPasses(q, ResponseTo(answers, q.id), telemetry))
                          && e.scoreRatio == if e.passed then 1.0 else 0.0
    ensures q.kind == FreeText ==>
              exists e :: Verdict(q, answers, telemetry, runId) == [e] && e.questionId == q.id && e.source == AiRubric
                          && (e.passed <==> e.scoreRatio > 0.0)
                          && EssayRatio(ResponseTo(answers, q.id), e.scoreRatio)
    ensures q.kind != ElkSearch && q.kind != FreeText ==> Verdict(q, answers, telemetry, runId) == []
  {
    if q.kind == ElkSearch || q.kind == FreeText {
      var e := Verdict(q, answers, telemetry, runId)[0];
      assert Verdict(q, answers, telemetry, runId) == [e];
    }
  }

  predicate EssayRatio(response: Response, ratio: real) {
    match response
    case TextResponse(text) =>
      && (|Trim(text)| >= 80 ==> ratio == 1.0)
      && (40 <= |Trim(text)| < 80 ==> ratio == 0.5)
      && (|Trim(text)| < 40 ==> ratio == 0.0)
    case _ => ratio == 0.0
  }
}
