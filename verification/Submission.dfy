/** The way of a package through the API: the checks made on what the content
    service returns, and a submission from its answers to the points it books. */
module Submission {
  import opened Wrappers
  import opened Sorting
  import opened Questions
  import opened Grading
  import opened TrustedEvidence
  import opened ContentContract
  import opened GradableContent
  import Tables

  // ----- Taking a package over -----

  const BARRED_NAMES := {"answer", "answerKey", "correctOption", "solution", "flag"}

  predicate PublicTaken(q: PublicQuestion, requested: set<QuestionType>) {
    && Identifier(q.id, 128) && q.kind in requested && Text(q.prompt, 10, 2000)
    && WholePoints(q.points) && PointsValue(q.points) >= 1
    && (forall i :: 0 <= i < |q.extra| ==> q.extra[i].name !in BARRED_NAMES)
    && (Choice(q.kind) ==> 2 <= |q.options| <= 8)
  }

  ghost predicate HiddenTaken(hidden: Question, questions: seq<PublicQuestion>) {
    && WholePoints(hidden.points)
    && exists i :: 0 <= i < |questions| && questions[i].id == hidden.id && questions[i].kind == hidden.kind
                   && PointsValue(questions[i].points) == PointsValue(hidden.points)
  }

  /** `validateGeneratedQuestions` and the technique pattern of `validateAiDraft`. */
  ghost predicate Taken(p: TrainingPackage, request: ContentRequest) {
    && |request.questionTypes| <= |p.questions| <= 20 && |p.grading| == |p.questions|
    && (forall i :: 0 <= i < |p.questions| ==> PublicTaken(p.questions[i], Requested(request)))
    && Distinct(PublicIds(p.questions)) && Requested(request) <= KindsOf(p.questions)
    && (forall i :: 0 <= i < |p.grading| ==> HiddenTaken(p.grading[i], p.questions))
    && |Members(Ids(p.grading))| == |p.questions|
    && p.scenario.chain != [] && (forall i :: 0 <= i < |p.scenario.chain| ==> Technique(p.scenario.chain[i]))
  }

  lemma TakenTechniques(p: TrainingPackage, request: ContentRequest, values: seq<Value>)
    requires Taken(p, request) && values != [] && ShownSet(values) <= AttackIds(p.scenario.chain)
    ensures HasTechnique(values)
  {
    assert Shown(values[0]) in ShownSet(values);
    var k :| 0 <= k < |p.scenario.chain| && Upper(p.scenario.chain[k]) == Shown(values[0]);
    TechniqueIsNormal(p.scenario.chain[k]);
    PyTechniqueIsNormal(p.scenario.chain[k]);
    OnlyTextShowsTechnique(values[0]);
    assert values[0].Str? && Technique(values[0].text);
  }

  predicate ChoiceKeysHaveText(questions: seq<Question>) {
    forall i :: 0 <= i < |questions| && Choice(questions[i].kind) ==>
      questions[i].key.optionIds.Some? && HasText(questions[i].key.optionIds.value)
  }

  lemma TakenAnswerable(sha256: string -> string, p: TrainingPackage, request: ContentRequest, i: nat)
    requires Accepts(sha256, p, request) && Taken(p, request) && i < |p.grading|
    ensures !p.grading[i].points.Truth?
    ensures !Choice(p.grading[i].kind) ==> Answerable(p.grading[i])
  {
    assert HiddenTaken(p.grading[i], p.questions);
    var j := AcceptedPair(sha256, p, request, i);
    if p.grading[i].kind == MitreAttack { TakenTechniques(p, request, p.grading[i].key.techniqueIds); }
  }

  /** Of the gaps between contract and grader the API closes two: once it has taken a
      package over, grading never throws, and full marks are within reach exactly when
      every choice key holds a string. */
  lemma TakenFullMarksIff(sha256: string -> string, p: TrainingPackage, request: ContentRequest, passScore: real)
    requires Accepts(sha256, p, request) && Taken(p, request) && 0.0 <= passScore <= 100.0
    ensures forall answers, evidence :: InOrder(p.grading, answers, evidence) ==> GradeRun(p.grading, answers, evidence, passScore).Ok?
    ensures FullMarksPossible(p.grading, passScore) <==> ChoiceKeysHaveText(p.grading)
  {
    forall i | 0 <= i < |p.grading|
      ensures !p.grading[i].points.Truth? && (!Choice(p.grading[i].kind) ==> Answerable(p.grading[i]))
    {
      TakenAnswerable(sha256, p, request, i);
    }
    forall answers, evidence | InOrder(p.grading, answers, evidence)
      ensures GradeRun(p.grading, answers, evidence, passScore).Ok?
    {
      AcceptedNeverThrows(sha256, p, request, answers, evidence, passScore);
    }
    FullMarksIff(sha256, p, request, passScore);
    AnswerableIffChoiceText(p.grading);
  }

  lemma AnswerableIffChoiceText(questions: seq<Question>)
    requires forall i :: 0 <= i < |questions| && !Choice(questions[i].kind) ==> Answerable(questions[i])
    ensures AllAnswerable(questions) <==> ChoiceKeysHaveText(questions)
  {}

  // ----- Submitting -----

  datatype SubmitError = EvidenceRejected(fault: EvidenceFault) | GradingFailed(error: GradeError)

  datatype Graded = Graded(run: RunGrade, skills: map<Skill, SkillTotal>, evidence: seq<Evidence>)

  function MergedFor(questions: seq<Question>, answers: seq<Answer>, stored: seq<Evidence>, telemetry: set<string>, runId: string)
    : seq<Evidence>
  {
    Merged(stored + Verdicts(questions, answers, telemetry, runId))
  }

  /** The grade of a submission, or why there is none: stored evidence is checked first,
      then the generated evidence, and then both are graded together. */
  function SubmitGrade(questions: seq<Question>, answers: seq<Answer>, stored: seq<Evidence>, generated: seq<Evidence>, passScore: real)
    : Result<RunGrade, SubmitError>
  {
    var first, second := EvidenceFaultOf(stored, questions), EvidenceFaultOf(generated, questions);
    if first.Some? then Err(EvidenceRejected(first.value))
    else if second.Some? then Err(EvidenceRejected(second.value))
    else
      match GradeRun(questions, answers, Merged(stored + generated), passScore)
      case Err(e) => Err(GradingFailed(e))
      case Ok(run) => Ok(run)
  }

  lemma SubmitGradeIff(questions: seq<Question>, answers: seq<Answer>, stored: seq<Evidence>, generated: seq<Evidence>, passScore: real)
    ensures var grade := SubmitGrade(questions, answers, stored, generated, passScore);
            && (grade.Ok? <==> Acceptable(stored, questions) && Acceptable(generated, questions)
                               && GradeRun(questions, answers, Merged(stored + generated), passScore).Ok?)
            && (grade.Ok? ==> GradeRun(questions, answers, Merged(stored + generated), passScore) == Ok(grade.value))
  {
    NoEvidenceFaultIff(stored, questions);
    NoEvidenceFaultIff(generated, questions);
  }

  /** Validate both evidence lists, merge them, grade, break down by skill. */
  method Submit(questions: seq<Question>, answers: seq<Answer>, stored: seq<Evidence>, generated: seq<Evidence>, passScore: real)
    returns (r: Result<Graded, SubmitError>)
    ensures r.Ok? <==>
              && Acceptable(stored, questions) && Acceptable(generated, questions)
              && GradeRun(questions, answers, Merged(stored + generated), passScore).Ok?
    ensures r.Err? ==> SubmitGrade(questions, answers, stored, generated, passScore) == Err(r.error)
    ensures r.Ok? ==>
              && SubmitGrade(questions, answers, stored, generated, passScore) == Ok(r.value.run)
              && r.value.evidence == Merged(stored + generated)
              && Ok(r.value.run) == GradeRun(questions, answers, r.value.evidence, passScore)
              && (forall s: Skill :: s in r.value.skills <==> Touched(r.value.run.grades, s))
              && (forall s :: s in r.value.skills ==> r.value.skills[s] == SkillTotals(r.value.run.grades, s))
  {
    var storedOk := ValidateTrustedGradeEvidence(stored, questions);
    if storedOk.Err? { return Err(EvidenceRejected(storedOk.error)); }
    var generatedOk := ValidateTrustedGradeEvidence(generated, questions);
    if generatedOk.Err? { return Err(EvidenceRejected(generatedOk.error)); }
    var evidence := MergeTrustedGradeEvidence(storedOk.value, generatedOk.value);
    var run := GradeRun(questions, answers, evidence, passScore);
    if run.Err? { return Err(GradingFailed(run.error)); }
    var skills := GradeSkills(run.value.grades);
    r := Ok(Graded(run.value, skills, evidence));
  }

  /** A graded submission meets the checks of the results table, and its skills add up
      to the points that are booked. */
  lemma GradedRunIsStorable(questions: seq<Question>, answers: seq<Answer>, evidence: seq<Evidence>, passScore: real)
    requires GradeRun(questions, answers, evidence, passScore).Ok? && questions != []
    requires forall i :: 0 <= i < |questions| ==> !questions[i].kind.OtherType?
    ensures var run := GradeRun(questions, answers, evidence, passScore).value;
            && 0 <= run.awarded <= run.maximum && run.maximum > 0
            && AllSkills(run.grades) == SkillTotal(run.awarded, run.maximum)
  {
    GradeRunTotals(questions, answers, evidence, passScore);
    SkillsConservePoints(GradeRun(questions, answers, evidence, passScore).value.grades);
  }

  /** What is booked for a run that had no result yet: exactly its awarded points. */
  lemma SubmissionIsBooked(t: Tables.Tables, questions: seq<Question>, answers: seq<Answer>, evidence: seq<Evidence>,
                           passScore: real, id: Tables.Id, runId: Tables.Id, hintsUsed: nat, now: Tables.Time)
    requires GradeRun(questions, answers, evidence, passScore).Ok? && questions != []
    requires forall i :: 0 <= i < |questions| ==> !questions[i].kind.OtherType?
    requires runId in t.access.runs && !Tables.HasResultForRun(t.scores, runId)
    requires t.access.runs[runId].labId in t.content.labs && t.access.runs[runId].userId in t.accounts.users
    requires forall i :: 0 <= i < |t.scores.results| ==> t.scores.results[i].id != id
    ensures var run := GradeRun(questions, answers, evidence, passScore).value;
            var owner := t.access.runs[runId];
            var result := Tables.ChallengeResult(id, owner.labId, owner.userId, runId, run.awarded, run.maximum, hintsUsed, now);
            var after := Tables.SaveChallengeResult(t, result);
            && after.results == t.scores.results + [result]
            && |after.events| == |t.scores.events| + 1
            && after.events[|t.scores.events|].pointsDelta == AllSkills(run.grades).points
            && after.events[|t.scores.events|].maxPoints == AllSkills(run.grades).maxPoints
  {
    GradedRunIsStorable(questions, answers, evidence, passScore);
    var run := GradeRun(questions, answers, evidence, passScore).value;
    var owner := t.access.runs[runId];
    var result := Tables.ChallengeResult(id, owner.labId, owner.userId, runId, run.awarded, run.maximum, hintsUsed, now);
    assert Tables.Storable(t, result);
  }

  // ----- Full marks from the development grader -----

  /** Answering from the keys, with a search that names the expected events and an
      essay of full length. */
  function FullResponse(q: Question, query: string, essay: string): Response {
    match q.kind
    case ElkSearch => SearchResponse(query, q.key.expectedEvidenceIds)
    case FreeText => TextResponse(essay)
    case _ => KeyResponse(q)
  }

  function FullAnswers(questions: seq<Question>, query: string, essay: string): (answers: seq<Answer>)
    ensures |answers| == |questions|
  {
    seq(|questions|, i requires 0 <= i < |questions| => Answer(questions[i].id, FullResponse(questions[i], query, essay)))
  }

  lemma ExpectedEventsFound(q: Question, telemetry: set<string>, query: string)
    requires q.kind == ElkSearch && HasText(q.key.expectedEvidenceIds) && ShownSet(q.key.expectedEvidenceIds) <= telemetry
    requires forall id :: id in telemetry ==> Identifier(id, 128)
    requires Trim(query) != ""
    ensures SearchPasses(q, SearchResponse(query, q.key.expectedEvidenceIds), telemetry)
  {
    var values := q.key.expectedEvidenceIds;
    forall v | v in values && v.Str? ensures v.text in telemetry && v.text in EventIdentifiers(values) {
      assert Shown(v) in ShownSet(values);
    }
  }

  lemma FullVerdict(q: Question, answers: seq<Answer>, telemetry: set<string>, runId: string, query: string, essay: string)
    requires ResponseTo(answers, q.id) == FullResponse(q, query, essay)
    requires Trim(query) != "" && |Trim(essay)| >= 80
    requires q.kind == ElkSearch ==> SearchPasses(q, SearchResponse(query, q.key.expectedEvidenceIds), telemetry)
    requires SourceFor(q.kind).Some?
    ensures exists e :: e in Verdict(q, answers, telemetry, runId) && FullCredit(q, e)
  {
    VerdictValid(q, answers, telemetry, runId);
    var e := Verdict(q, answers, telemetry, runId)[0];
    assert e in Verdict(q, answers, telemetry, runId);
    assert FullCredit(q, e);
  }

  ghost predicate ReadyToGrade(questions: seq<Question>, telemetry: set<string>) {
    && questions != [] && WellKeyed(questions) && AllAnswerable(questions)
    && (forall i :: 0 <= i < |questions| ==> Identifier(questions[i].id, 80))
    && (forall id :: id in telemetry ==> Identifier(id, 128))
    && forall i :: 0 <= i < |questions| && questions[i].kind == ElkSearch ==>
         HasText(questions[i].key.expectedEvidenceIds) && ShownSet(questions[i].key.expectedEvidenceIds) <= telemetry
  }

  lemma GeneratedCredit(questions: seq<Question>, telemetry: set<string>, runId: string, query: string, essay: string, i: nat)
    returns (e: Evidence)
    requires ReadyToGrade(questions, telemetry) && i < |questions|
    requires Trim(query) != "" && |Trim(essay)| >= 80 && SourceFor(questions[i].kind).Some?
    ensures e in Verdicts(questions, FullAnswers(questions, query, essay), telemetry, runId) && FullCredit(questions[i], e)
  {
    var answers, q := FullAnswers(questions, query, essay), questions[i];
    assert AnswerIds(answers) == Ids(questions);
    ResponseFound(answers, i);
    if q.kind == ElkSearch { ExpectedEventsFound(q, telemetry, query); }
    FullVerdict(q, answers, telemetry, runId, query, essay);
    e :| e in Verdict(q, answers, telemetry, runId) && FullCredit(q, e);
    VerdictIncluded(questions, answers, telemetry, runId, i);
  }

  lemma FullCreditsMerged(questions: seq<Question>, stored: seq<Evidence>, telemetry: set<string>, runId: string,
                          query: string, essay: string)
    requires ReadyToGrade(questions, telemetry) && Acceptable(stored, questions)
    requires Trim(query) != "" && |Trim(essay)| >= 80
    requires Acceptable(Verdicts(questions, FullAnswers(questions, query, essay), telemetry, runId), questions)
    ensures Credits(questions, MergedFor(questions, FullAnswers(questions, query, essay), stored, telemetry, runId))
  {
    var generated := Verdicts(questions, FullAnswers(questions, query, essay), telemetry, runId);
    var merged := Merged(stored + generated);
    forall i | 0 <= i < |questions| && SourceFor(questions[i].kind).Some?
      ensures exists k :: 0 <= k < |merged| && FullCredit(questions[i], merged[k])
    {
      var e := GeneratedCredit(questions, telemetry, runId, query, essay, i);
      MergedKeeps(questions, stored, generated, e);
      var k :| 0 <= k < |merged| && merged[k] == e;
      assert FullCredit(questions[i], merged[k]);
    }
  }

  lemma MergedKeeps(questions: seq<Question>, stored: seq<Evidence>, generated: seq<Evidence>, e: Evidence)
    requires Acceptable(stored, questions) && Acceptable(generated, questions) && e in generated
    ensures exists k :: 0 <= k < |Merged(stored + generated)| && Merged(stored + generated)[k] == e
  {
    MergeAcceptable(stored, generated, questions);
    var at :| 0 <= at < |generated| && generated[at] == e;
    assert generated[at] in Merged(stored + generated);
  }

  lemma EvidenceIdentified(evidence: seq<Evidence>, questions: seq<Question>)
    requires Acceptable(evidence, questions) && Identified(Ids(questions))
    ensures Identified(EvidenceIds(evidence)) && Distinct(EvidenceIds(evidence))
  {
    forall i | 0 <= i < |EvidenceIds(evidence)| ensures EvidenceIds(evidence)[i] != "" {
      assert Expected(questions, evidence[i]);
      ByIdKeys(Ids(questions), questions);
      var k :| 0 <= k < |questions| && Ids(questions)[k] == evidence[i].questionId;
    }
  }

  lemma FullResponseScores(questions: seq<Question>, evidence: seq<Evidence>, query: string, essay: string, i: nat)
    requires i < |questions| && WellKeyed(questions) && AllAnswerable(questions)
    requires Identified(EvidenceIds(evidence)) && Distinct(EvidenceIds(evidence)) && Credits(questions, evidence)
    ensures Grades(questions, FullAnswers(questions, query, essay), evidence)[i].awarded == PointsValue(questions[i].points)
  {
    var answers, q := FullAnswers(questions, query, essay), questions[i];
    assert AnswerIds(answers) == Ids(questions);
    ResponseFound(answers, i);
    assert Answerable(q);
    if SourceFor(q.kind).Some? {
      var k :| 0 <= k < |evidence| && FullCredit(q, evidence[k]);
      EvidenceFound(evidence, k);
    } else {
      KeyMeetsItself(q);
    }
    CreditedInFull(q, ResponseTo(answers, q.id), EvidenceFor(evidence, q.id));
  }

  /** End to end with the development grader: answering from the keys scores 100,
      whatever acceptable evidence was stored before. */
  lemma FullSubmissionScores100(questions: seq<Question>, stored: seq<Evidence>, telemetry: set<string>, runId: string,
                                query: string, essay: string, passScore: real)
    requires ReadyToGrade(questions, telemetry) && Acceptable(stored, questions)
    requires Trim(query) != "" && |Trim(essay)| >= 80 && 0.0 <= passScore <= 100.0
    ensures var answers := FullAnswers(questions, query, essay);
            && Acceptable(Verdicts(questions, answers, telemetry, runId), questions)
            && var run := GradeRun(questions, answers, MergedFor(questions, answers, stored, telemetry, runId), passScore);
               run.Ok? && run.value.score == 100 && run.value.awarded == run.value.maximum && run.value.passed
  {
    var answers := FullAnswers(questions, query, essay);
    var evidence := MergedFor(questions, answers, stored, telemetry, runId);
    DevelopmentGraderAcceptable(questions, answers, telemetry, runId);
    MergeAcceptable(stored, Verdicts(questions, answers, telemetry, runId), questions);
    EvidenceIdentified(evidence, questions);
    FullCreditsMerged(questions, stored, telemetry, runId, query, essay);
    assert AnswerIds(answers) == Ids(questions);
    GradeRunTotals(questions, answers, evidence, passScore);
    var grades := Grades(questions, answers, evidence);
    forall i | 0 <= i < |grades| ensures grades[i].awarded == grades[i].maximum {
      FullResponseScores(questions, evidence, query, essay, i);
    }
  }

  predicate ElkKeysHaveText(questions: seq<Question>) {
    forall i :: 0 <= i < |questions| && questions[i].kind == ElkSearch ==> HasText(questions[i].key.expectedEvidenceIds)
  }

  lemma TakenElkKey(sha256: string -> string, p: TrainingPackage, request: ContentRequest, i: nat)
    requires Accepts(sha256, p, request) && i < |p.grading|
    ensures Identifier(p.grading[i].id, 80)
    ensures p.grading[i].kind == ElkSearch ==>
              ShownSet(p.grading[i].key.expectedEvidenceIds) <= TelemetryIds(p.spec.telemetry, request.team)
  {
    var j := AcceptedPair(sha256, p, request, i);
  }

  lemma TelemetryIdsPlain(telemetry: Option<seq<Event>>, team: string)
    requires TelemetryOk(telemetry, team)
    ensures forall id :: id in TelemetryIds(telemetry, team) ==> Identifier(id, 128)
  {
    forall id | id in TelemetryIds(telemetry, team) ensures Identifier(id, 128) {
      var k :| 0 <= k < |telemetry.value| && EventIds(telemetry.value)[k] == id;
      assert EventOk(telemetry.value[k]);
    }
  }

  lemma TakenQuestion(sha256: string -> string, p: TrainingPackage, request: ContentRequest, i: nat)
    requires Accepts(sha256, p, request) && Taken(p, request) && i < |p.grading|
    ensures SoundQuestion(p.grading[i], TelemetryIds(p.spec.telemetry, request.team))
  {
    TakenAnswerable(sha256, p, request, i);
    AcceptedScorable(sha256, p, request, i);
    AcceptedKeyShape(sha256, p, request, i);
    TakenElkKey(sha256, p, request, i);
  }

  lemma AcceptedBasics(sha256: string -> string, p: TrainingPackage, request: ContentRequest)
    requires Accepts(sha256, p, request)
    ensures p.grading != [] && Identified(Ids(p.grading)) && Distinct(Ids(p.grading))
    ensures forall id :: id in TelemetryIds(p.spec.telemetry, request.team) ==> Identifier(id, 128)
  {
    AcceptedPairing(sha256, p, request);
    AcceptedGrading(sha256, p, request);
    TelemetryIdsPlain(p.spec.telemetry, request.team);
  }

  ghost predicate SoundQuestion(q: Question, telemetry: set<string>) {
    && Scorable(q) && KeyShape(q) && Identifier(q.id, 80)
    && (!Choice(q.kind) ==> Answerable(q))
    && (q.kind == ElkSearch ==> ShownSet(q.key.expectedEvidenceIds) <= telemetry)
  }

  lemma SoundReadyIff(questions: seq<Question>, telemetry: set<string>)
    requires questions != [] && Identified(Ids(questions)) && Distinct(Ids(questions))
    requires forall id :: id in telemetry ==> Identifier(id, 128)
    requires forall i :: 0 <= i < |questions| ==> SoundQuestion(questions[i], telemetry)
    ensures ReadyToGrade(questions, telemetry) <==> ChoiceKeysHaveText(questions) && ElkKeysHaveText(questions)
  {
    AnswerableIffChoiceText(questions);
  }

  /** Content that both services accepted can be answered in full exactly when no
      choice key and no ELK key consists of numbers or constants only. */
  lemma TakenReadyIff(sha256: string -> string, p: TrainingPackage, request: ContentRequest)
    requires Accepts(sha256, p, request) && Taken(p, request)
    ensures ReadyToGrade(p.grading, TelemetryIds(p.spec.telemetry, request.team))
       <==> ChoiceKeysHaveText(p.grading) && ElkKeysHaveText(p.grading)
  {
    var telemetry := TelemetryIds(p.spec.telemetry, request.team);
    AcceptedBasics(sha256, p, request);
    forall i | 0 <= i < |p.grading| ensures SoundQuestion(p.grading[i], telemetry) {
      TakenQuestion(sha256, p, request, i);
    }
    SoundReadyIff(p.grading, telemetry);
  }
}
