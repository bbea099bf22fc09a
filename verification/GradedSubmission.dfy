/** A submit request from its body to the ledger: when it is carried out, what it books,
    and that a generated draft can be solved for everything it is worth. */
module GradedSubmission {
  import opened Wrappers
  import opened JsonText
  import opened CanonicalJson
  import opened SubmittedBody
  import Sorting
  import Questions
  import Grading
  import TrustedEvidence
  import opened Submission
  import ContentContract
  import DraftGenerator
  import DraftAcceptance
  import DraftContract
  import opened Tables
  import opened Repository
  import opened RunReaper
  import opened Requests
  import opened RequestHandler

  function LabOf(t: Tables, runId: Id): Lab
    requires runId in t.access.runs && t.access.runs[runId].labId in t.content.labs
  {
    t.content.labs[t.access.runs[runId].labId]
  }

  /** The run exists for the actor, who still sees its lab. */
  predicate RunInReach(t: Tables, r: Request) {
    && r.operation.OpSubmit? && r.operation.resourceId in t.access.runs
    && CanSeeLab(t, r.actor, t.access.runs[r.operation.resourceId].labId)
  }

  /** The grade of a request: its body's answers against the hidden questions of the lab
      of its run. */
  function GradeOf(t: Tables, r: Request): Result<Grading.RunGrade, SubmitError>
    requires RunInReach(t, r) && SubmittedAnswers(r.body).Ok?
  {
    SubmitGrade(LabOf(t, r.operation.resourceId).shape.questions, SubmittedAnswers(r.body).value,
                r.world.storedEvidence, r.world.generatedEvidence, PASS_SCORE)
  }

  predicate NewResult(t: Tables, r: Request)
    requires r.operation.OpSubmit?
  {
    !HasResultForRun(t.scores, r.operation.resourceId)
    && forall i :: 0 <= i < |t.scores.results| ==> t.scores.results[i].id != r.world.freshId
  }

  lemma GradedBounds(t: Tables, r: Request)
    requires RunInReach(t, r) && SubmittedAnswers(r.body).Ok? && GradeOf(t, r).Ok?
    ensures var run := GradeOf(t, r).value;
            && 0 <= run.awarded <= run.maximum
            && (run.maximum > 0 <==> LabOf(t, r.operation.resourceId).shape.questions != [])
  {
    var questions, answers := LabOf(t, r.operation.resourceId).shape.questions, SubmittedAnswers(r.body).value;
    SubmitGradeIff(questions, answers, r.world.storedEvidence, r.world.generatedEvidence, PASS_SCORE);
    Grading.GradeRunTotals(questions, answers, TrustedEvidence.Merged(r.world.storedEvidence + r.world.generatedEvidence), PASS_SCORE);
  }

  /** What a submit request saves when it is carried out, and what stops it. */
  lemma PerformSubmitIs(t: Tables, r: Request, listed: seq<Id>)
    requires r.operation.OpSubmit? && Admission(t, r).None?
    ensures r.operation.resourceId in t.access.runs
    ensures Perform(t, r, listed) == PerformSubmit(t, r.actor, r.operation.resourceId, r.body, r.world)
  {}

  lemma AdmittedOwner(t: Tables, r: Request)
    requires r.operation.OpSubmit? && Admission(t, r).None?
    ensures r.actor in t.accounts.users && r.operation.resourceId in t.access.runs
  {
    assert AccountRefusal(t, r).None? && BodyRefusal(t, r).None?;
  }

  lemma GradedIsStorable(t: Tables, r: Request)
    requires RunInReach(t, r) && SubmittedAnswers(r.body).Ok? && GradeOf(t, r).Ok? && r.actor in t.accounts.users
    ensures var runId := r.operation.resourceId;
            var result := ResultOf(r.actor, t.access.runs[runId].labId, runId, GradeOf(t, r).value, HintsUsed(r.body, r.world.hintCount), r.world);
            !HasResultForRun(t.scores, runId) && Storable(t, result) <==> LabOf(t, runId).shape.questions != [] && NewResult(t, r)
  {
    GradedBounds(t, r);
  }

  lemma SubmitDoneIff(t: Tables, r: Request)
    requires r.operation.OpSubmit? && r.actor in t.accounts.users && r.operation.resourceId in t.access.runs
    ensures PerformSubmit(t, r.actor, r.operation.resourceId, r.body, r.world).Ok? <==>
              && SubmittedAnswers(r.body).Ok? && RunInReach(t, r) && GradeOf(t, r).Ok?
              && LabOf(t, r.operation.resourceId).shape.questions != [] && NewResult(t, r)
  {
    if SubmittedAnswers(r.body).Ok? && RunInReach(t, r) {
      var lab := LabOf(t, r.operation.resourceId);
      assert GradeFor(lab, SubmittedAnswers(r.body).value, r.world) == GradeOf(t, r);
      if GradeOf(t, r).Ok? { GradedIsStorable(t, r); }
    }
  }

  /** A submission succeeds exactly when it is admitted under a new key, its body can be
      read, the lab is in reach, both evidence lists and the answers pass, the lab has
      questions, and the run has no result yet. */
  lemma SubmitPerformedIff(sha256: Text -> string, t: Tables, r: Request, listed: seq<Id>)
    requires r.operation.OpSubmit?
    ensures Handle(sha256, t, r, listed).outcome.Performed? <==>
              && Admission(t, r).None? && KeyOf(r) !in t.records
              && SubmittedAnswers(r.body).Ok? && RunInReach(t, r) && GradeOf(t, r).Ok?
              && LabOf(t, r.operation.resourceId).shape.questions != [] && NewResult(t, r)
    ensures !Handle(sha256, t, r, listed).outcome.Performed? ==> Handle(sha256, t, r, listed).tables == t
  {
    if Admission(t, r).None? && KeyOf(r) !in t.records {
      PerformSubmitIs(t, r, listed);
      AdmittedOwner(t, r);
      SubmitDoneIff(t, r);
    }
  }

  /** One result and one event were added, for this run and this user, and both carry
      the grade. */
  ghost predicate Books(before: Scores, after: Scores, r: Request, run: Grading.RunGrade) {
    && r.operation.OpSubmit?
    && |after.results| == |before.results| + 1 && after.results[..|before.results|] == before.results
    && |after.events| == |before.events| + 1 && after.events[..|before.events|] == before.events
    && var result, event := after.results[|before.results|], after.events[|before.events|];
       && result.runId == r.operation.resourceId && result.userId == event.userId == r.actor && event.resultId == result.id
       && result.score == event.pointsDelta == run.awarded && result.maxScore == event.maxPoints == run.maximum
       && result.hintsUsed == HintsUsed(r.body, r.world.hintCount)
  }

  predicate KnownKinds(questions: seq<Questions.Question>) {
    forall i :: 0 <= i < |questions| ==> !questions[i].kind.OtherType?
  }

  /** A submit request that is carried out books exactly the grade of its own answers
      against its own lab's questions, and the grade's skills add up to what is booked. */
  lemma PerformedSubmitBooks(sha256: Text -> string, t: Tables, r: Request, listed: seq<Id>)
    requires r.operation.OpSubmit? && Handle(sha256, t, r, listed).outcome.Performed?
    ensures RunInReach(t, r) && SubmittedAnswers(r.body).Ok? && GradeOf(t, r).Ok?
    ensures Books(t.scores, Handle(sha256, t, r, listed).tables.scores, r, GradeOf(t, r).value)
    ensures KnownKinds(LabOf(t, r.operation.resourceId).shape.questions) ==>
              Grading.AllSkills(GradeOf(t, r).value.grades) == Grading.SkillTotal(GradeOf(t, r).value.awarded, GradeOf(t, r).value.maximum)
  {
    SubmitPerformedIff(sha256, t, r, listed);
    PerformSubmitIs(t, r, listed);
    var questions, answers := LabOf(t, r.operation.resourceId).shape.questions, SubmittedAnswers(r.body).value;
    SubmitGradeIff(questions, answers, r.world.storedEvidence, r.world.generatedEvidence, PASS_SCORE);
    if KnownKinds(questions) {
      GradedRunIsStorable(questions, answers, TrustedEvidence.Merged(r.world.storedEvidence + r.world.generatedEvidence), PASS_SCORE);
    }
  }

  /** The request as it runs: what the ledger gains is the grade of its own answers, or
      nothing at all. */
  method SubmitAnswers(repository: SqliteRepository, runtime: Adapter, telemetry: Adapter, sha256: Text -> string, r: Request)
    returns (outcome: Outcome)
    requires r.operation.OpSubmit? && Answers(runtime, telemetry, r.world)
    modifies repository, runtime, telemetry
    ensures outcome.Performed? ==>
              && RunInReach(old(repository.Snapshot()), r) && SubmittedAnswers(r.body).Ok? && GradeOf(old(repository.Snapshot()), r).Ok?
              && Books(old(repository.Snapshot()).scores, repository.Snapshot().scores, r, GradeOf(old(repository.Snapshot()), r).value)
    ensures !outcome.Performed? ==> repository.Snapshot() == old(repository.Snapshot())
  {
    ghost var before := repository.Snapshot();
    var stopped;
    outcome, stopped := Route(repository, runtime, telemetry, sha256, r);
    SubmitPerformedIff(sha256, before, r, stopped);
    if outcome.Performed? { PerformedSubmitBooks(sha256, before, r, stopped); }
  }

  // ----- Solving a lab -----

  /** The answers a request sends are those of the keys, and its evidence comes from the
      development grader. */
  ghost predicate SendsKeys(t: Tables, r: Request, telemetry: set<string>, query: string, essay: string)
    requires RunInReach(t, r)
  {
    var questions := LabOf(t, r.operation.resourceId).shape.questions;
    && SubmittedAnswers(r.body) == Ok(FullAnswers(questions, query, essay))
    && TrustedEvidence.Acceptable(r.world.storedEvidence, questions)
    && r.world.generatedEvidence
       == TrustedEvidence.Verdicts(questions, FullAnswers(questions, query, essay), telemetry, r.operation.resourceId)
  }

  /** The request is admitted under a new key for a run that has no result. */
  predicate FirstSubmission(t: Tables, r: Request) {
    RunInReach(t, r) && Admission(t, r).None? && KeyOf(r) !in t.records && NewResult(t, r)
  }

  /** The request is carried out with a score of 100, and the ledger gets every point. */
  ghost predicate BooksEverything(sha256: Text -> string, t: Tables, r: Request, listed: seq<Id>)
    requires RunInReach(t, r)
  {
    && Handle(sha256, t, r, listed).outcome.Performed?
    && SubmittedAnswers(r.body).Ok? && GradeOf(t, r).Ok?
    && GradeOf(t, r).value.score == 100 && GradeOf(t, r).value.awarded == GradeOf(t, r).value.maximum
    && Books(t.scores, Handle(sha256, t, r, listed).tables.scores, r, GradeOf(t, r).value)
  }

  /** The first submission of a run that answers from the keys is carried out and books
      everything the lab is worth. */
  lemma KeysBookEverything(sha256: Text -> string, t: Tables, r: Request, listed: seq<Id>, telemetry: set<string>,
                           query: string, essay: string)
    requires FirstSubmission(t, r)
    requires ReadyToGrade(LabOf(t, r.operation.resourceId).shape.questions, telemetry)
    requires SendsKeys(t, r, telemetry, query, essay)
    requires Questions.Trim(query) != "" && |Questions.Trim(essay)| >= 80
    ensures BooksEverything(sha256, t, r, listed)
  {
    var questions := LabOf(t, r.operation.resourceId).shape.questions;
    FullSubmissionScores100(questions, r.world.storedEvidence, telemetry, r.operation.resourceId, query, essay, PASS_SCORE);
    SubmitGradeIff(questions, FullAnswers(questions, query, essay), r.world.storedEvidence, r.world.generatedEvidence, PASS_SCORE);
    SubmitPerformedIff(sha256, t, r, listed);
    PerformedSubmitBooks(sha256, t, r, listed);
  }

  /** And such a body exists whenever the keys' items can be sent. */
  lemma KeysCanBeSent(questions: seq<Questions.Question>, query: string, essay: string)
    requires forall i :: 0 <= i < |questions| ==> Sendable(FullResponse(questions[i], query, essay))
    ensures SubmittedAnswers(BodyOf(FullAnswers(questions, query, essay))) == Ok(FullAnswers(questions, query, essay))
  {
    BodyRoundTrip(FullAnswers(questions, query, essay));
  }

  /** From the instructor's request to the ledger: a lab made from the draft `p` for a
      conforming request can be solved for everything it is worth. */
  lemma DraftBooksEverything(digest: string -> string, made: DraftGenerator.GenerateRequest, profiles: DraftGenerator.Profiles,
                             w: DraftGenerator.Wording, p: ContentContract.TrainingPackage,
                             sha256: Text -> string, t: Tables, r: Request, listed: seq<Id>, query: string, essay: string)
    requires DraftContract.ConformingDraft(digest, made, profiles, w, p)
    requires FirstSubmission(t, r)
    requires LabOf(t, r.operation.resourceId).shape.questions == p.grading
    requires SendsKeys(t, r, ContentContract.TelemetryIds(p.spec.telemetry, made.team), query, essay)
    requires Questions.Trim(query) != "" && |Questions.Trim(essay)| >= 80
    ensures BooksEverything(sha256, t, r, listed)
  {
    DraftContract.ConformingDraftReady(digest, made, profiles, w, p);
    KeysBookEverything(sha256, t, r, listed, ContentContract.TelemetryIds(p.spec.telemetry, made.team), query, essay);
  }
}
