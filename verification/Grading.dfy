/** Scoring one run: how a submission is matched with the hidden keys, when grading
    fails, and how the awarded points add up. */
module Grading {
  import opened Wrappers
  import opened Sorting
  import opened Questions
  import opened Rounding

  datatype Response =
    | NoResponse
    | TextResponse(text: string)
    | ListResponse(values: seq<Value>)
    | SearchResponse(query: string, evidenceIds: seq<Value>)

  datatype Answer = Answer(questionId: string, response: Response)

  datatype Source = Elk | AiRubric

  datatype Evidence = Evidence(
    questionId: string, source: Source, passed: bool, scoreRatio: real, policyVersion: string, reference: string)

  datatype GradeOutcome = Correct | Partial | Incorrect | Ungradable

  datatype QuestionGrade = QuestionGrade(
    questionId: string, kind: QuestionType, awarded: int, maximum: int, outcome: GradeOutcome)

  datatype RunGrade = RunGrade(awarded: int, maximum: int, score: int, passed: bool, grades: seq<QuestionGrade>)

  datatype GradeError =
    | MissingId(table: string)
    | DuplicateId(table: string, id: string)
    | InvalidPoints(id: string)
    | InvalidPassScore
    | UnknownQuestion(id: string)

  // ----- Rows by identifier -----

  /** The first fault met while filling a map row by row. */
  function IdFault(ids: seq<string>, table: string): Option<GradeError>
    decreases |ids|
  {
    if ids == [] then None
    else
      var last := |ids| - 1;
      var earlier := IdFault(ids[..last], table);
      if earlier.Some? then earlier
      else if ids[last] == "" then Some(MissingId(table))
      else if ids[last] in ids[..last] then Some(DuplicateId(table, ids[last]))
      else None
  }

  function ById<T>(ids: seq<string>, items: seq<T>): map<string, T>
    requires |ids| == |items|
    decreases |ids|
  {
    if ids == [] then map[]
    else
      var last := |ids| - 1;
      ById(ids[..last], items[..last])[ids[last] := items[last]]
  }

  /** `uniqueMap`, as the loop it is. */
  method UniqueMap<T>(ids: seq<string>, items: seq<T>, table: string) returns (r: Result<map<string, T>, GradeError>)
    requires |ids| == |items|
    ensures r == if IdFault(ids, table).Some? then Err(IdFault(ids, table).value) else Ok(ById(ids, items))
  {
    var rows: map<string, T> := map[];
    for i := 0 to |ids|
      invariant IdFault(ids[..i], table).None?
      invariant rows == ById(ids[..i], items[..i])
    {
      ByIdKeys(ids[..i], items[..i]);
      FaultPrefix(ids, i, table);
      assert ids[..i + 1][..i] == ids[..i] && items[..i + 1][..i] == items[..i];
      if ids[i] == "" { return Err(MissingId(table)); }
      if ids[i] in rows { return Err(DuplicateId(table, ids[i])); }
      rows := rows[ids[i] := items[i]];
    }
    assert ids[..|ids|] == ids && items[..|items|] == items;
    r := Ok(rows);
  }

  lemma {:induction false} FaultPrefix(ids: seq<string>, i: nat, table: string)
    requires i < |ids|
    ensures IdFault(ids[..i + 1], table).Some? ==> IdFault(ids, table) == IdFault(ids[..i + 1], table)
    decreases |ids|
  {
    if i + 1 == |ids| {
      assert ids[..i + 1] == ids;
    } else {
      FaultPrefix(ids[..|ids| - 1], i, table);
      assert ids[..|ids| - 1][..i + 1] == ids[..i + 1];
    }
  }

  lemma {:induction false} ByIdKeys<T>(ids: seq<string>, items: seq<T>)
    requires |ids| == |items|
    ensures forall id :: id in ById(ids, items) <==> id in ids
    decreases |ids|
  {
    if ids != [] {
      var last := |ids| - 1;
      ByIdKeys(ids[..last], items[..last]);
      assert ids == ids[..last] + [ids[last]];
    }
  }

  lemma {:induction false} ByIdRow<T>(ids: seq<string>, items: seq<T>, i: nat)
    requires |ids| == |items| && Distinct(ids) && i < |ids|
    ensures ids[i] in ById(ids, items) && ById(ids, items)[ids[i]] == items[i]
    decreases |ids|
  {
    var last := |ids| - 1;
    if i < last { ByIdRow(ids[..last], items[..last], i); }
  }

  predicate Identified(ids: seq<string>) { forall i :: 0 <= i < |ids| ==> ids[i] != "" }

  /** Filling succeeds exactly for nonempty, pairwise different identifiers. */
  lemma {:induction false} NoFaultIff(ids: seq<string>, table: string)
    ensures IdFault(ids, table).None? <==> Identified(ids) && Distinct(ids)
    decreases |ids|
  {
    if ids != [] {
      var last := |ids| - 1;
      NoFaultIff(ids[..last], table);
      if IdFault(ids, table).None? {
        forall i, j | 0 <= i < j < |ids| ensures ids[i] != ids[j] {
          if j == last { assert ids[i] in ids[..last]; }
        }
      }
    }
  }

  // ----- One question -----

  function Normal(s: string): string { Lower(Trim(s)) }

  function NormalizedSet(values: seq<Value>): set<string> {
    set v | v in values && v.Str? && Normal(v.text) != "" :: Normal(v.text)
  }

  function NormalizedTechniques(values: seq<Value>): set<string> {
    set v | v in values && v.Str? && Technique(Upper(Trim(v.text))) :: Upper(Trim(v.text))
  }

  function ChoiceKey(key: AnswerKey): seq<Value> {
    if key.optionIds.Some? then key.optionIds.value else if key.accepted.Some? then key.accepted.value else []
  }

  function ListOf(response: Response): seq<Value> { if response.ListResponse? then response.values else [] }

  predicate ValidEvidence(e: Evidence) {
    Trim(e.policyVersion) != "" && Trim(e.reference) != "" && 0.0 <= e.scoreRatio <= 1.0
  }

  function SourceFor(kind: QuestionType): Option<Source> {
    match kind
    case ElkSearch => Some(Elk)
    case FreeText => Some(AiRubric)
    case _ => None
  }

  function Clamp(ratio: real): real { if ratio < 0.0 then 0.0 else if ratio > 1.0 then 1.0 else ratio }

  /** Whether the response matches the key of a question that is graded locally. */
  predicate Matches(q: Question, response: Response) {
    match q.kind
    case SingleChoice =>
      var accepted := NormalizedSet(ChoiceKey(q.key));
      |accepted| == 1 && (if response.TextResponse? then Normal(response.text) else "") in accepted
    case MultipleChoice =>
      var expected := NormalizedSet(if q.key.optionIds.Some? then q.key.optionIds.value else []);
      expected != {} && expected == NormalizedSet(ListOf(response))
    case _ =>
      var expected := NormalizedTechniques(q.key.techniqueIds);
      var values := if response.TextResponse? then [Str(response.text)] else ListOf(response);
      expected != {} && expected == NormalizedTechniques(values)
  }

  function GradeQuestion(q: Question, response: Response, evidence: Option<Evidence>): (g: QuestionGrade)
    requires PointsValue(q.points) > 0
    ensures g.questionId == q.id && g.kind == q.kind
    ensures 0 <= g.awarded <= g.maximum == PointsValue(q.points)
    ensures g.outcome.Correct? ==> g.awarded == g.maximum
    ensures g.outcome.Incorrect? || g.outcome.Ungradable? ==> g.awarded == 0
  {
    var points := PointsValue(q.points);
    if SourceFor(q.kind).Some? then
      if evidence.None? || evidence.value.source != SourceFor(q.kind).value || !ValidEvidence(evidence.value) then
        QuestionGrade(q.id, q.kind, 0, points, Ungradable)
      else
        var ratio := if evidence.value.passed then Clamp(evidence.value.scoreRatio) else 0.0;
        QuestionGrade(q.id, q.kind, Share(points, ratio), points,
                      if ratio == 1.0 then Correct else if ratio > 0.0 then Partial else Incorrect)
    else if Matches(q, response) then QuestionGrade(q.id, q.kind, points, points, Correct)
    else QuestionGrade(q.id, q.kind, 0, points, Incorrect)
  }

  /** The points times the ratio, rounded: off by at most half a point. */
  function Share(points: int, ratio: real): (awarded: int)
    requires points > 0 && 0.0 <= ratio <= 1.0
    ensures 0 <= awarded <= points
    ensures ratio == 0.0 ==> awarded == 0
    ensures ratio == 1.0 ==> awarded == points
    ensures points as real * ratio - 0.5 < awarded as real <= points as real * ratio + 0.5
  {
    ProductWithin(points as real, ratio);
    Round(points as real * ratio)
  }

  lemma ProductWithin(points: real, ratio: real)
    requires points > 0.0 && 0.0 <= ratio <= 1.0
    ensures 0.0 <= points * ratio <= points
  {}

  /** Evidence that counts and passed earns its share of the points; evidence that did
      not pass, or that does not count, earns nothing. */
  lemma ExternalCredit(q: Question, response: Response, evidence: Option<Evidence>)
    requires PointsValue(q.points) > 0 && SourceFor(q.kind).Some?
    ensures var g := GradeQuestion(q, response, evidence);
            var counts := evidence.Some? && Some(evidence.value.source) == SourceFor(q.kind) && ValidEvidence(evidence.value);
            && (counts && evidence.value.passed ==> g.awarded == Share(PointsValue(q.points), evidence.value.scoreRatio))
            && (!counts || !evidence.value.passed ==> g.awarded == 0)
            && (g.outcome.Ungradable? <==> !counts)
  {}

  // ----- One run -----

  function AnswerIds(answers: seq<Answer>): (ids: seq<string>)
    ensures |ids| == |answers|
  {
    seq(|answers|, i requires 0 <= i < |answers| => answers[i].questionId)
  }

  function EvidenceIds(evidence: seq<Evidence>): (ids: seq<string>)
    ensures |ids| == |evidence|
  {
    seq(|evidence|, i requires 0 <= i < |evidence| => evidence[i].questionId)
  }

  function PointsFault(questions: seq<Question>): Option<GradeError> {
    if questions == [] then None
    else if !WholePoints(questions[0].points) || PointsValue(questions[0].points) <= 0 then Some(InvalidPoints(questions[0].id))
    else PointsFault(questions[1..])
  }

  function UnknownFault(ids: seq<string>, known: seq<string>): Option<GradeError> {
    if ids == [] then None
    else if ids[0] !in known then Some(UnknownQuestion(ids[0]))
    else UnknownFault(ids[1..], known)
  }

  function FirstFault(questions: seq<Question>, answers: seq<Answer>, evidence: seq<Evidence>, passScore: real)
    : Option<GradeError>
  {
    var asked := IdFault(Ids(questions), "question");
    if asked.Some? then asked
    else if PointsFault(questions).Some? then PointsFault(questions)
    else if passScore < 0.0 || passScore > 100.0 then Some(InvalidPassScore)
    else if IdFault(AnswerIds(answers), "answer").Some? then IdFault(AnswerIds(answers), "answer")
    else if IdFault(EvidenceIds(evidence), "grade evidence").Some? then IdFault(EvidenceIds(evidence), "grade evidence")
    else UnknownFault(AnswerIds(answers), Ids(questions))
  }

  predicate Scorable(q: Question) { WholePoints(q.points) && PointsValue(q.points) > 0 }

  /** Exactly when `gradeRun` returns a grade instead of throwing. */
  ghost predicate Gradable(questions: seq<Question>, answers: seq<Answer>, evidence: seq<Evidence>, passScore: real) {
    && Identified(Ids(questions)) && Distinct(Ids(questions))
    && (forall i :: 0 <= i < |questions| ==> Scorable(questions[i]))
    && 0.0 <= passScore <= 100.0
    && Identified(AnswerIds(answers)) && Distinct(AnswerIds(answers))
    && Identified(EvidenceIds(evidence)) && Distinct(EvidenceIds(evidence))
    && (forall i :: 0 <= i < |AnswerIds(answers)| ==> AnswerIds(answers)[i] in Ids(questions))
  }

  lemma {:induction false} PointsFaultIff(questions: seq<Question>)
    ensures PointsFault(questions).None? <==> forall i :: 0 <= i < |questions| ==> Scorable(questions[i])
  {
    if questions != [] {
      PointsFaultIff(questions[1..]);
      assert forall i :: 1 <= i < |questions| ==> questions[i] == questions[1..][i - 1];
    }
  }

  lemma {:induction false} UnknownFaultIff(ids: seq<string>, known: seq<string>)
    ensures UnknownFault(ids, known).None? <==> forall i :: 0 <= i < |ids| ==> ids[i] in known
  {
    if ids != [] {
      UnknownFaultIff(ids[1..], known);
      assert forall i :: 1 <= i < |ids| ==> ids[i] == ids[1..][i - 1];
    }
  }

  lemma FirstFaultIff(questions: seq<Question>, answers: seq<Answer>, evidence: seq<Evidence>, passScore: real)
    ensures FirstFault(questions, answers, evidence, passScore).None? <==> Gradable(questions, answers, evidence, passScore)
  {
    NoFaultIff(Ids(questions), "question");
    PointsFaultIff(questions);
    NoFaultIff(AnswerIds(answers), "answer");
    NoFaultIff(EvidenceIds(evidence), "grade evidence");
    UnknownFaultIff(AnswerIds(answers), Ids(questions));
  }

  function ResponseTo(answers: seq<Answer>, id: string): Response {
    var rows := ById(AnswerIds(answers), answers);
    if id in rows then rows[id].response else NoResponse
  }

  function EvidenceFor(evidence: seq<Evidence>, id: string): Option<Evidence> {
    var rows := ById(EvidenceIds(evidence), evidence);
    if id in rows then Some(rows[id]) else None
  }

  function Grades(questions: seq<Question>, answers: seq<Answer>, evidence: seq<Evidence>): (grades: seq<QuestionGrade>)
    requires forall i :: 0 <= i < |questions| ==> Scorable(questions[i])
    ensures |grades| == |questions|
  {
    seq(|questions|, i requires 0 <= i < |questions| && Scorable(questions[i]) =>
      GradeQuestion(questions[i], ResponseTo(answers, questions[i].id), EvidenceFor(evidence, questions[i].id)))
  }

  function Awarded(grades: seq<QuestionGrade>): int {
    if grades == [] then 0 else Awarded(grades[..|grades| - 1]) + grades[|grades| - 1].awarded
  }

  function Maximum(grades: seq<QuestionGrade>): int {
    if grades == [] then 0 else Maximum(grades[..|grades| - 1]) + grades[|grades| - 1].maximum
  }

  function GradeRun(questions: seq<Question>, answers: seq<Answer>, evidence: seq<Evidence>, passScore: real)
    : Result<RunGrade, GradeError>
  {
    var fault := FirstFault(questions, answers, evidence, passScore);
    if fault.Some? then Err(fault.value)
    else
      FirstFaultIff(questions, answers, evidence, passScore);
      var grades := Grades(questions, answers, evidence);
      var awarded, maximum := Awarded(grades), Maximum(grades);
      var score := if maximum == 0 then 0 else Round(awarded as real / maximum as real * 100.0);
      Ok(RunGrade(awarded, maximum, score, score as real >= passScore, grades))
  }

  // ----- What a grade amounts to -----

  lemma {:induction false} TotalsBounded(grades: seq<QuestionGrade>)
    requires forall i :: 0 <= i < |grades| ==> 0 <= grades[i].awarded <= grades[i].maximum && grades[i].maximum > 0
    ensures 0 <= Awarded(grades) <= Maximum(grades)
    ensures Maximum(grades) >= |grades|
    ensures Awarded(grades) == Maximum(grades) <==> forall i :: 0 <= i < |grades| ==> grades[i].awarded == grades[i].maximum
    ensures Awarded(grades) == 0 <==> forall i :: 0 <= i < |grades| ==> grades[i].awarded == 0
  {
    if grades != [] { TotalsBounded(grades[..|grades| - 1]); }
  }

  /** `gradeRun` succeeds exactly on gradable input, and then no total leaves its
      bounds: full marks mean every question was awarded in full. */
  lemma GradeRunTotals(questions: seq<Question>, answers: seq<Answer>, evidence: seq<Evidence>, passScore: real)
    ensures GradeRun(questions, answers, evidence, passScore).Ok? <==> Gradable(questions, answers, evidence, passScore)
    ensures Gradable(questions, answers, evidence, passScore) ==>
              var run := GradeRun(questions, answers, evidence, passScore).value;
              && |run.grades| == |questions|
              && 0 <= run.awarded <= run.maximum && run.maximum >= |questions|
              && 0 <= run.score <= 100
              && (run.awarded == run.maximum <==> forall i :: 0 <= i < |run.grades| ==> run.grades[i].awarded == run.grades[i].maximum)
              && (run.awarded == 0 <==> forall i :: 0 <= i < |run.grades| ==> run.grades[i].awarded == 0)
              && (run.awarded == run.maximum && questions != [] ==> run.score == 100)
              && (run.awarded == 0 ==> run.score == 0)
              && (run.passed <==> run.score as real >= passScore)
  {
    FirstFaultIff(questions, answers, evidence, passScore);
    if Gradable(questions, answers, evidence, passScore) {
      var grades := Grades(questions, answers, evidence);
      TotalsBounded(grades);
      if Maximum(grades) > 0 { ScoreBounded(Awarded(grades), Maximum(grades)); }
    }
  }

  lemma ScoreBounded(awarded: int, maximum: int)
    requires 0 <= awarded <= maximum && maximum > 0
    ensures 0 <= Round(awarded as real / maximum as real * 100.0) <= 100
    ensures awarded == maximum ==> Round(awarded as real / maximum as real * 100.0) == 100
    ensures awarded == 0 ==> Round(awarded as real / maximum as real * 100.0) == 0
  {
    var share := awarded as real / maximum as real;
    assert 0.0 <= share <= 1.0;
    assert awarded == maximum ==> share == 1.0;
    assert awarded == 0 ==> share == 0.0;
  }

  // ----- Skills -----

  datatype Skill = ElkInvestigation | AttackMapping | RedTeamExecution | Analysis

  datatype SkillTotal = SkillTotal(points: int, maxPoints: int)

  function SkillOf(kind: QuestionType): Option<Skill> {
    match kind
    case ElkSearch => Some(ElkInvestigation)
    case MitreAttack => Some(AttackMapping)
    case SingleChoice => Some(RedTeamExecution)
    case MultipleChoice => Some(RedTeamExecution)
    case FreeText => Some(Analysis)
    case OtherType(_) => None
  }

  function SkillTotals(grades: seq<QuestionGrade>, skill: Skill): SkillTotal {
    if grades == [] then SkillTotal(0, 0)
    else
      var last := grades[|grades| - 1];
      var earlier := SkillTotals(grades[..|grades| - 1], skill);
      if SkillOf(last.kind) == Some(skill) then SkillTotal(earlier.points + last.awarded, earlier.maxPoints + last.maximum)
      else earlier
  }

  predicate Touched(grades: seq<QuestionGrade>, skill: Skill) {
    exists i :: 0 <= i < |grades| && SkillOf(grades[i].kind) == Some(skill)
  }

  function TotalIn(skills: map<Skill, SkillTotal>, skill: Skill): SkillTotal {
    if skill in skills then skills[skill] else SkillTotal(0, 0)
  }

  /** The record holds exactly the skills that were graded, each with its totals. */
  ghost predicate HoldsTotals(skills: map<Skill, SkillTotal>, grades: seq<QuestionGrade>) {
    forall s: Skill :: (s in skills <==> Touched(grades, s)) && TotalIn(skills, s) == SkillTotals(grades, s)
  }

  lemma TouchedStep(grades: seq<QuestionGrade>, i: nat, s: Skill)
    requires i < |grades|
    ensures Touched(grades[..i + 1], s) <==> Touched(grades[..i], s) || SkillOf(grades[i].kind) == Some(s)
  {
    var longer := grades[..i + 1];
    if SkillOf(grades[i].kind) == Some(s) { assert SkillOf(longer[i].kind) == Some(s); }
    if j :| 0 <= j < i && SkillOf(grades[..i][j].kind) == Some(s) { assert SkillOf(longer[j].kind) == Some(s); }
    if j :| 0 <= j < |longer| && SkillOf(longer[j].kind) == Some(s) {
      if j < i { assert SkillOf(grades[..i][j].kind) == Some(s); }
    }
  }

  lemma TotalsStep(grades: seq<QuestionGrade>, i: nat, s: Skill)
    requires i < |grades|
    ensures var earlier := SkillTotals(grades[..i], s);
            SkillTotals(grades[..i + 1], s) ==
            if SkillOf(grades[i].kind) == Some(s)
            then SkillTotal(earlier.points + grades[i].awarded, earlier.maxPoints + grades[i].maximum) else earlier
  {
    assert grades[..i + 1][..i] == grades[..i];
  }

  lemma HoldsStep(skills: map<Skill, SkillTotal>, next: map<Skill, SkillTotal>, grades: seq<QuestionGrade>, i: nat)
    requires i < |grades| && HoldsTotals(skills, grades[..i])
    requires match SkillOf(grades[i].kind)
             case None => next == skills
             case Some(s) =>
               next == skills[s := SkillTotal(TotalIn(skills, s).points + grades[i].awarded, TotalIn(skills, s).maxPoints + grades[i].maximum)]
    ensures HoldsTotals(next, grades[..i + 1])
  {
    forall s: Skill ensures (s in next <==> Touched(grades[..i + 1], s)) && TotalIn(next, s) == SkillTotals(grades[..i + 1], s) {
      TouchedStep(grades, i, s);
      TotalsStep(grades, i, s);
    }
  }

  /** `gradeSkills` accumulates into a record that holds a skill from its first grade on. */
  method GradeSkills(grades: seq<QuestionGrade>) returns (skills: map<Skill, SkillTotal>)
    ensures forall s: Skill :: s in skills <==> Touched(grades, s)
    ensures forall s :: s in skills ==> skills[s] == SkillTotals(grades, s)
  {
    skills := map[];
    for i := 0 to |grades|
      invariant HoldsTotals(skills, grades[..i])
    {
      ghost var before := skills;
      var definition := SkillOf(grades[i].kind);
      if definition.Some? {
        var skill := definition.value;
        var current := TotalIn(skills, skill);
        skills := skills[skill := SkillTotal(current.points + grades[i].awarded, current.maxPoints + grades[i].maximum)];
      }
      HoldsStep(before, skills, grades, i);
    }
    assert grades[..|grades|] == grades;
    assert forall s :: s in skills ==> TotalIn(skills, s) == skills[s];
  }

  function AllSkills(grades: seq<QuestionGrade>): SkillTotal {
    var a, b := SkillTotals(grades, ElkInvestigation), SkillTotals(grades, AttackMapping);
    var c, d := SkillTotals(grades, RedTeamExecution), SkillTotals(grades, Analysis);
    SkillTotal(a.points + b.points + c.points + d.points, a.maxPoints + b.maxPoints + c.maxPoints + d.maxPoints)
  }

  /** No point is lost or counted twice when a run is broken down by skill. */
  lemma {:induction false} SkillsConservePoints(grades: seq<QuestionGrade>)
    requires forall i :: 0 <= i < |grades| ==> !grades[i].kind.OtherType?
    ensures AllSkills(grades) == SkillTotal(Awarded(grades), Maximum(grades))
  {
    if grades != [] { SkillsConservePoints(grades[..|grades| - 1]); }
  }
}
