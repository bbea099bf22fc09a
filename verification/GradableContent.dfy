/** From acceptance to grading: what a package that the content service accepted
    means to the scorer, which is written in another language. */
module GradableContent {
  import opened Wrappers
  import opened Sorting
  import opened Questions
  import opened Grading
  import opened ContentContract
  import opened ContractChecker

  // ----- Identifiers -----

  /** Equally long lists with the same identifiers, none repeated on one side, repeat
      none on the other. */
  lemma SameMembersNoRepeat(hidden: seq<string>, public: seq<string>)
    requires |hidden| == |public| && Members(hidden) == Members(public) && Distinct(public)
    ensures Distinct(hidden)
  {
    DistinctIffAsMany(public);
    DistinctIffAsMany(hidden);
  }

  lemma AcceptedGrading(sha256: string -> string, p: TrainingPackage, request: ContentRequest)
    requires Accepts(sha256, p, request)
    ensures GradingOk(p.grading, p.questions, TelemetryIds(p.spec.telemetry, request.team), AttackIds(p.scenario.chain))
    ensures QuestionsOk(p.questions, request) && Distinct(PublicIds(p.questions)) && p.grading != []
  {}

  /** Every hidden contract is the only one for its public question, and every public
      question has one. */
  lemma AcceptedPairing(sha256: string -> string, p: TrainingPackage, request: ContentRequest)
    requires Accepts(sha256, p, request)
    ensures Identified(Ids(p.grading)) && Distinct(Ids(p.grading))
    ensures Members(Ids(p.grading)) == Members(PublicIds(p.questions)) && |p.grading| == |p.questions|
  {
    AcceptedGrading(sha256, p, request);
    SameMembersNoRepeat(Ids(p.grading), PublicIds(p.questions));
    forall i | 0 <= i < |Ids(p.grading)| ensures Ids(p.grading)[i] != "" {
      assert HiddenOk(p.grading[i], p.questions, TelemetryIds(p.spec.telemetry, request.team), AttackIds(p.scenario.chain));
    }
  }

  lemma AcceptedPair(sha256: string -> string, p: TrainingPackage, request: ContentRequest, i: nat) returns (j: nat)
    requires Accepts(sha256, p, request) && i < |p.grading|
    ensures j < |p.questions| && PublicOk(p.questions[j], Requested(request)) && ChainOk(p.scenario.chain)
    ensures PairOk(p.grading[i], p.questions[j], TelemetryIds(p.spec.telemetry, request.team), AttackIds(p.scenario.chain))
  {
    AcceptedGrading(sha256, p, request);
    assert HiddenOk(p.grading[i], p.questions, TelemetryIds(p.spec.telemetry, request.team), AttackIds(p.scenario.chain));
    j :| 0 <= j < |p.questions| && PairOk(p.grading[i], p.questions[j],
           TelemetryIds(p.spec.telemetry, request.team), AttackIds(p.scenario.chain));
  }

  // ----- Points -----

  /** Hidden points equal public ones for Python. The scorer then takes them exactly
      when they are not the boolean that Python holds equal to one. */
  lemma PointsCarryOver(hidden: Amount, public: Amount)
    requires IntegerWithin(public, 1, 1000) && SamePoints(hidden, public)
    ensures WholePoints(hidden) && PointsValue(hidden) > 0 <==> !hidden.Truth?
    ensures !hidden.Truth? ==> PointsValue(hidden) == public.n
  {}

  ghost predicate SomeTruth(questions: seq<Question>) {
    exists i :: 0 <= i < |questions| && questions[i].points.Truth?
  }

  lemma AcceptedScorable(sha256: string -> string, p: TrainingPackage, request: ContentRequest, i: nat)
    requires Accepts(sha256, p, request) && i < |p.grading|
    ensures Scorable(p.grading[i]) <==> !p.grading[i].points.Truth?
  {
    var j := AcceptedPair(sha256, p, request, i);
    PointsCarryOver(p.grading[i].points, p.questions[j].points);
  }

  /** A submission in order: one answer per known question, one verdict per question. */
  ghost predicate InOrder(questions: seq<Question>, answers: seq<Answer>, evidence: seq<Evidence>) {
    && Identified(AnswerIds(answers)) && Distinct(AnswerIds(answers))
    && Identified(EvidenceIds(evidence)) && Distinct(EvidenceIds(evidence))
    && forall i :: 0 <= i < |AnswerIds(answers)| ==> AnswerIds(answers)[i] in Ids(questions)
  }

  /** Grading accepted content throws on no submission in order, exactly when no
      hidden question has a boolean for its points. */
  lemma AcceptedNeverThrows(sha256: string -> string, p: TrainingPackage, request: ContentRequest,
                            answers: seq<Answer>, evidence: seq<Evidence>, passScore: real)
    requires Accepts(sha256, p, request)
    requires InOrder(p.grading, answers, evidence) && 0.0 <= passScore <= 100.0
    ensures GradeRun(p.grading, answers, evidence, passScore).Ok? <==> !SomeTruth(p.grading)
  {
    AcceptedPairing(sha256, p, request);
    forall i | 0 <= i < |p.grading| ensures Scorable(p.grading[i]) <==> !p.grading[i].points.Truth? {
      AcceptedScorable(sha256, p, request, i);
    }
    GradeRunTotals(p.grading, answers, evidence, passScore);
  }

  // ----- Full marks -----

  predicate HasText(values: seq<Value>) { exists i :: 0 <= i < |values| && values[i].Str? }

  predicate HasTechnique(values: seq<Value>) {
    exists i :: 0 <= i < |values| && values[i].Str? && Technique(values[i].text)
  }

  /** Whether the key names anything the scorer can compare a response with. */
  predicate Answerable(q: Question) {
    match q.kind
    case SingleChoice => q.key.optionIds.Some? && HasText(q.key.optionIds.value)
    case MultipleChoice => q.key.optionIds.Some? && HasText(q.key.optionIds.value)
    case MitreAttack => HasTechnique(q.key.techniqueIds)
    case _ => true
  }

  /** Answering from the key. */
  function KeyResponse(q: Question): Response {
    match q.kind
    case SingleChoice =>
      if q.key.optionIds.Some? && q.key.optionIds.value != [] && q.key.optionIds.value[0].Str?
      then TextResponse(q.key.optionIds.value[0].text) else NoResponse
    case MultipleChoice => ListResponse(ChoiceKey(q.key))
    case _ => ListResponse(q.key.techniqueIds)
  }

  /** What the contract guarantees about a key that the scorer compares itself. */
  ghost predicate KeyShape(q: Question) {
    match q.kind
    case SingleChoice =>
      && q.key.optionIds.Some? && |q.key.optionIds.value| == 1
      && forall i :: 0 <= i < |q.key.optionIds.value| && q.key.optionIds.value[i].Str? ==> Identifier(q.key.optionIds.value[i].text, 80)
    case MultipleChoice =>
      && q.key.optionIds.Some?
      && forall i :: 0 <= i < |q.key.optionIds.value| && q.key.optionIds.value[i].Str? ==> Identifier(q.key.optionIds.value[i].text, 80)
    case MitreAttack =>
      forall i :: 0 <= i < |q.key.techniqueIds| ==> q.key.techniqueIds[i].Str? && PyTechnique(q.key.techniqueIds[i].text)
    case ElkSearch => true
    case FreeText => true
    case OtherType(_) => false
  }

  lemma ShownOption(values: seq<Value>, options: seq<ChoiceOption>, i: nat)
    requires OptionsOk(options) && ShownSet(values) <= Members(OptionIds(options))
    requires i < |values| && values[i].Str?
    ensures Identifier(values[i].text, 80)
  {
    assert Shown(values[i]) in ShownSet(values);
    var k :| 0 <= k < |options| && OptionIds(options)[k] == values[i].text;
    assert options[k].id == values[i].text;
  }

  /** No number, constant, list or object shows as a technique. */
  lemma OnlyTextShowsTechnique(v: Value)
    ensures PyTechnique(Shown(v)) ==> v.Str?
  {
    if v.NotStr? { assert NonStringShape(v.shown); }
  }

  lemma TechniqueIsText(v: Value, chain: seq<string>)
    requires ChainOk(chain) && Shown(v) in AttackIds(chain)
    ensures v.Str? && PyTechnique(v.text)
  {
    var k :| 0 <= k < |chain| && Upper(chain[k]) == Shown(v);
    OnlyTextShowsTechnique(v);
  }

  lemma AcceptedKeyShape(sha256: string -> string, p: TrainingPackage, request: ContentRequest, i: nat)
    requires Accepts(sha256, p, request) && i < |p.grading|
    ensures KeyShape(p.grading[i])
  {
    var j := AcceptedPair(sha256, p, request, i);
    KeyShapeFromPair(p.grading[i], p.questions[j], TelemetryIds(p.spec.telemetry, request.team), p.scenario.chain);
  }

  lemma KeyShapeFromPair(q: Question, public: PublicQuestion, telemetry: set<string>, chain: seq<string>)
    requires PairOk(q, public, telemetry, AttackIds(chain)) && ChainOk(chain)
    requires Choice(public.kind) ==> OptionsOk(public.options)
    ensures KeyShape(q)
  {
    if Choice(q.kind) {
      var values := q.key.optionIds.value;
      forall i | 0 <= i < |values| && values[i].Str? ensures Identifier(values[i].text, 80) {
        ShownOption(values, public.options, i);
      }
    } else if q.kind == MitreAttack {
      forall i | 0 <= i < |q.key.techniqueIds| ensures q.key.techniqueIds[i].Str? && PyTechnique(q.key.techniqueIds[i].text) {
        assert Shown(q.key.techniqueIds[i]) in ShownSet(q.key.techniqueIds);
        TechniqueIsText(q.key.techniqueIds[i], chain);
      }
    }
  }

  lemma NormalizedNonEmpty(values: seq<Value>)
    requires forall i :: 0 <= i < |values| && values[i].Str? ==> Identifier(values[i].text, 80)
    ensures NormalizedSet(values) != {} <==> HasText(values)
  {
    if i :| 0 <= i < |values| && values[i].Str? {
      IdentifierIsTrimmed(values[i].text, 80);
      assert Normal(values[i].text) in NormalizedSet(values);
    }
    if NormalizedSet(values) != {} {
      var n :| n in NormalizedSet(values);
      var v :| v in values && v.Str? && Normal(v.text) == n;
      var k :| 0 <= k < |values| && values[k] == v;
      assert values[k].Str?;
    }
  }

  lemma TechniquesNonEmpty(values: seq<Value>)
    requires forall i :: 0 <= i < |values| ==> values[i].Str? && PyTechnique(values[i].text)
    ensures NormalizedTechniques(values) != {} <==> HasTechnique(values)
  {
    if i :| 0 <= i < |values| && values[i].Str? && Technique(values[i].text) {
      PyTechniqueIsNormal(values[i].text);
      assert values[i].text in NormalizedTechniques(values);
    }
    if NormalizedTechniques(values) != {} {
      var n :| n in NormalizedTechniques(values);
      var v :| v in values && v.Str? && Technique(Upper(Trim(v.text))) && Upper(Trim(v.text)) == n;
      var k :| 0 <= k < |values| && values[k] == v;
      PyTechniqueIsNormal(v.text);
      assert values[k].Str? && Technique(values[k].text);
    }
  }

  /** A locally graded key is met by its own answer when it is answerable, and by no
      response at all otherwise. */
  lemma KeyMeetsItself(q: Question)
    requires KeyShape(q) && SourceFor(q.kind).None?
    ensures Answerable(q) ==> Matches(q, KeyResponse(q))
    ensures !Answerable(q) ==> forall response :: !Matches(q, response)
  {
    match q.kind
    case SingleChoice =>
      var values := q.key.optionIds.value;
      NormalizedNonEmpty(values);
      if Answerable(q) {
        assert values[0].Str?;
        IdentifierIsTrimmed(values[0].text, 80);
        assert NormalizedSet(values) == {Normal(values[0].text)};
      }
    case MultipleChoice => NormalizedNonEmpty(q.key.optionIds.value);
    case MitreAttack => TechniquesNonEmpty(q.key.techniqueIds);
  }

  /** Nobody answering gets nothing: no key is met by the missing response. */
  lemma SilenceNeverMatches(q: Question)
    ensures !Matches(q, NoResponse)
  {
    assert NormalizedSet([]) == {} && NormalizedTechniques([]) == {};
  }

  // ----- Whole submissions -----

  function KeyAnswers(questions: seq<Question>): (answers: seq<Answer>)
    ensures |answers| == |questions|
  {
    seq(|questions|, i requires 0 <= i < |questions| => Answer(questions[i].id, KeyResponse(questions[i])))
  }

  /** Evidence that fully credits every externally graded question. */
  ghost predicate Credits(questions: seq<Question>, evidence: seq<Evidence>) {
    forall i :: 0 <= i < |questions| && SourceFor(questions[i].kind).Some? ==>
      exists k :: 0 <= k < |evidence| && FullCredit(questions[i], evidence[k])
  }

  predicate FullCredit(q: Question, e: Evidence) {
    e.questionId == q.id && SourceFor(q.kind) == Some(e.source) && ValidEvidence(e) && e.passed && e.scoreRatio == 1.0
  }

  lemma KeyAnswersInOrder(questions: seq<Question>, evidence: seq<Evidence>)
    requires Identified(Ids(questions)) && Distinct(Ids(questions))
    requires Identified(EvidenceIds(evidence)) && Distinct(EvidenceIds(evidence))
    ensures AnswerIds(KeyAnswers(questions)) == Ids(questions)
    ensures InOrder(questions, KeyAnswers(questions), evidence)
  {
    assert AnswerIds(KeyAnswers(questions)) == Ids(questions);
  }

  lemma ResponseFound(answers: seq<Answer>, i: nat)
    requires Distinct(AnswerIds(answers)) && i < |answers|
    ensures ResponseTo(answers, answers[i].questionId) == answers[i].response
  {
    ByIdRow(AnswerIds(answers), answers, i);
  }

  lemma EvidenceFound(evidence: seq<Evidence>, k: nat)
    requires Distinct(EvidenceIds(evidence)) && k < |evidence|
    ensures EvidenceFor(evidence, evidence[k].questionId) == Some(evidence[k])
  {
    ByIdRow(EvidenceIds(evidence), evidence, k);
  }

  lemma CreditedInFull(q: Question, response: Response, evidence: Option<Evidence>)
    requires Scorable(q)
    ensures SourceFor(q.kind).Some? && evidence.Some? && FullCredit(q, evidence.value) ==>
              GradeQuestion(q, response, evidence).awarded == PointsValue(q.points)
    ensures SourceFor(q.kind).None? ==>
              (GradeQuestion(q, response, evidence).awarded == PointsValue(q.points) <==> Matches(q, response))
  {}

  ghost predicate AllAnswerable(questions: seq<Question>) {
    forall i :: 0 <= i < |questions| ==> Answerable(questions[i])
  }

  ghost predicate WellKeyed(questions: seq<Question>) {
    && Identified(Ids(questions)) && Distinct(Ids(questions))
    && forall i :: 0 <= i < |questions| ==> Scorable(questions[i]) && KeyShape(questions[i])
  }

  lemma KeyAnswersScore(questions: seq<Question>, evidence: seq<Evidence>, i: nat)
    requires i < |questions| && WellKeyed(questions) && Answerable(questions[i])
    requires Identified(EvidenceIds(evidence)) && Distinct(EvidenceIds(evidence)) && Credits(questions, evidence)
    ensures Grades(questions, KeyAnswers(questions), evidence)[i].awarded == PointsValue(questions[i].points)
  {
    var q, answers := questions[i], KeyAnswers(questions);
    KeyAnswersInOrder(questions, evidence);
    ResponseFound(answers, i);
    if SourceFor(q.kind).Some? {
      var k :| 0 <= k < |evidence| && FullCredit(q, evidence[k]);
      EvidenceFound(evidence, k);
    } else {
      KeyMeetsItself(q);
    }
    CreditedInFull(q, ResponseTo(answers, q.id), EvidenceFor(evidence, q.id));
  }

  /** Answering from the keys with full external credit scores 100 when every key is
      answerable. */
  lemma KeysScoreFull(questions: seq<Question>, evidence: seq<Evidence>, passScore: real)
    requires questions != [] && WellKeyed(questions) && AllAnswerable(questions) && 0.0 <= passScore <= 100.0
    requires Identified(EvidenceIds(evidence)) && Distinct(EvidenceIds(evidence)) && Credits(questions, evidence)
    ensures var run := GradeRun(questions, KeyAnswers(questions), evidence, passScore);
            run.Ok? && run.value.awarded == run.value.maximum && run.value.score == 100 && run.value.passed
  {
    KeyAnswersInOrder(questions, evidence);
    GradeRunTotals(questions, KeyAnswers(questions), evidence, passScore);
    var grades := Grades(questions, KeyAnswers(questions), evidence);
    forall i | 0 <= i < |grades| ensures grades[i].awarded == grades[i].maximum {
      KeyAnswersScore(questions, evidence, i);
    }
  }

  /** One unanswerable key keeps every submission below full marks. */
  lemma UnanswerableFallsShort(questions: seq<Question>, answers: seq<Answer>, evidence: seq<Evidence>, passScore: real)
    requires WellKeyed(questions) && !AllAnswerable(questions)
    ensures var run := GradeRun(questions, answers, evidence, passScore);
            run.Ok? ==> run.value.awarded < run.value.maximum
  {
    GradeRunTotals(questions, answers, evidence, passScore);
    var i :| 0 <= i < |questions| && !Answerable(questions[i]);
    var q := questions[i];
    KeyMeetsItself(q);
    CreditedInFull(q, ResponseTo(answers, q.id), EvidenceFor(evidence, q.id));
    if GradeRun(questions, answers, evidence, passScore).Ok? {
      var grades := GradeRun(questions, answers, evidence, passScore).value.grades;
      assert grades[i].awarded != grades[i].maximum;
    }
  }

  ghost predicate FullMarksPossible(questions: seq<Question>, passScore: real) {
    exists answers, evidence ::
      var run := GradeRun(questions, answers, evidence, passScore);
      run.Ok? && run.value.awarded == run.value.maximum
  }

  function CreditFor(q: Question): Evidence {
    Evidence(q.id, if q.kind == ElkSearch then Elk else AiRubric, true, 1.0, "p", "r")
  }

  function Credit(questions: seq<Question>): (evidence: seq<Evidence>)
    ensures |evidence| == |questions|
  {
    seq(|questions|, i requires 0 <= i < |questions| => CreditFor(questions[i]))
  }

  lemma CreditCredits(questions: seq<Question>)
    ensures EvidenceIds(Credit(questions)) == Ids(questions)
    ensures Credits(questions, Credit(questions))
  {
    forall i | 0 <= i < |questions| && SourceFor(questions[i].kind).Some?
      ensures exists k :: 0 <= k < |questions| && FullCredit(questions[i], Credit(questions)[k])
    {
      assert Trim("p") == "p" && Trim("r") == "r";
      assert FullCredit(questions[i], Credit(questions)[i]);
    }
  }

  /** Full marks on accepted content are within reach exactly when no points are
      booleans, every choice key holds a string, and every ATT&CK key holds a
      technique written in ASCII digits. The contract demands none of the three. */
  lemma FullMarksIff(sha256: string -> string, p: TrainingPackage, request: ContentRequest, passScore: real)
    requires Accepts(sha256, p, request) && 0.0 <= passScore <= 100.0
    ensures FullMarksPossible(p.grading, passScore) <==> !SomeTruth(p.grading) && AllAnswerable(p.grading)
  {
    AcceptedPairing(sha256, p, request);
    forall i | 0 <= i < |p.grading| ensures KeyShape(p.grading[i]) && (Scorable(p.grading[i]) <==> !p.grading[i].points.Truth?) {
      AcceptedKeyShape(sha256, p, request, i);
      AcceptedScorable(sha256, p, request, i);
    }
    if !SomeTruth(p.grading) && AllAnswerable(p.grading) {
      CreditCredits(p.grading);
      KeysScoreFull(p.grading, Credit(p.grading), passScore);
    }
    if answers, evidence :| GradeRun(p.grading, answers, evidence, passScore).Ok?
                            && GradeRun(p.grading, answers, evidence, passScore).value.awarded
                               == GradeRun(p.grading, answers, evidence, passScore).value.maximum
    {
      GradeRunTotals(p.grading, answers, evidence, passScore);
      if !AllAnswerable(p.grading) { UnanswerableFallsShort(p.grading, answers, evidence, passScore); }
    }
  }

  /** The empty submission without evidence scores nothing. */
  lemma EmptySubmissionScoresZero(questions: seq<Question>, passScore: real)
    ensures var run := GradeRun(questions, [], [], passScore);
            run.Ok? ==> run.value.awarded == 0 && run.value.score == 0
  {
    GradeRunTotals(questions, [], [], passScore);
    if GradeRun(questions, [], [], passScore).Ok? {
      var grades := GradeRun(questions, [], [], passScore).value.grades;
      forall i | 0 <= i < |grades| ensures grades[i].awarded == 0 {
        SilenceNeverMatches(questions[i]);
        assert ResponseTo([], questions[i].id) == NoResponse && EvidenceFor([], questions[i].id) == None;
      }
    }
  }

  // ----- The gaps, concretely -----

  lemma ShownOne(v: Value)
    ensures ShownSet([v]) == {Shown(v)}
  {
    assert v in [v];
    forall s ensures s in ShownSet([v]) <==> s == Shown(v) {}
  }

  lemma AttackOne(technique: string)
    ensures AttackIds([technique]) == {Upper(technique)}
  {
    assert technique in [technique];
    forall s ensures s in AttackIds([technique]) <==> s == Upper(technique) {}
  }

  /** The number 1 passes for the option "1", and then no response is ever correct. */
  lemma NumberKeyPassesAndIsUnanswerable()
    ensures var options := [ChoiceOption("1", "first"), ChoiceOption("2", "second")];
            var key := AnswerKey(Some([NotStr("1")]), None, [], [], "");
            && OptionsOk(options) && KeyOk(SingleChoice, key, options, {}, {})
            && forall id, points, response :: !Matches(Question(id, SingleChoice, points, key), response)
  {
    var options := [ChoiceOption("1", "first"), ChoiceOption("2", "second")];
    var key := AnswerKey(Some([NotStr("1")]), None, [], [], "");
    assert OptionIds(options) == ["1", "2"];
    ShownOne(NotStr("1"));
    NormalizedNonEmpty(key.optionIds.value);
  }

  /** An ATT&CK identifier in Arabic-Indic digits passes, and then is never matched. */
  lemma ForeignDigitsPassAndAreUnanswerable()
    ensures var technique := "T105\U{0669}";
            var key := AnswerKey(None, None, [Str(technique)], [], "");
            && ChainOk([technique]) && KeyOk(MitreAttack, key, [], {}, AttackIds([technique]))
            && forall id, points, response :: !Matches(Question(id, MitreAttack, points, key), response)
  {
    var technique := "T105\U{0669}";
    var key := AnswerKey(None, None, [Str(technique)], [], "");
    assert Block(technique[4] as int, 0x660);
    assert PyTechnique(technique) && !Technique(technique);
    PyTechniqueIsNormal(technique);
    ShownOne(Str(technique));
    AttackOne(technique);
    TechniquesNonEmpty(key.techniqueIds);
  }
}
