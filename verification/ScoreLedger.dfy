/** Challenge results and the append-only ledger stay in step, point for point. */
module ScoreLedger {
  import opened Wrappers
  import opened Tables

  /** The ledger line a result was booked as. */
  predicate Booked(e: ScoreEvent, r: ChallengeResult) {
    && e.resultId == r.id && e.userId == r.userId
    && e.pointsDelta == r.score && e.maxPoints == r.maxScore && e.occurredAt == r.completedAt
  }

  ghost predicate LedgerInvariant(s: Scores) {
    && |s.events| == |s.results|
    && (forall i :: 0 <= i < |s.results| ==> Booked(s.events[i], s.results[i]))
    && (forall i, j :: 0 <= i < j < |s.results| ==> s.results[i].id != s.results[j].id)
    && (forall i, j :: 0 <= i < j < |s.results| ==> s.results[i].runId != s.results[j].runId)
    && (forall i :: 0 <= i < |s.results| ==> 0 <= s.results[i].score <= s.results[i].maxScore && s.results[i].maxScore > 0)
  }

  lemma SavingKeepsLedger(t: Tables, r: ChallengeResult)
    requires LedgerInvariant(t.scores)
    ensures LedgerInvariant(SaveChallengeResult(t, r))
    ensures t.scores.results <= SaveChallengeResult(t, r).results
    ensures t.scores.events <= SaveChallengeResult(t, r).events
  {}

  /** In every reachable state results and ledger lines correspond one to one in
      points and owner, a run has at most one result, and along a trace both
      tables only grow at the end. */
  lemma {:induction false} LedgerReachable(t: Tables, calls: seq<Call>)
    requires LedgerInvariant(t.scores)
    ensures LedgerInvariant(ApplyAll(t, calls).scores)
    ensures t.scores.results <= ApplyAll(t, calls).scores.results
    ensures t.scores.events <= ApplyAll(t, calls).scores.events
    decreases calls
  {
    if calls != [] {
      if calls[0].OnScores? { SavingKeepsLedger(t, calls[0].result); }
      LedgerReachable(Apply(t, calls[0]), calls[1..]);
    }
  }

  function ResultPoints(rows: seq<ChallengeResult>, userId: Id): int {
    if rows == [] then 0
    else ResultPoints(rows[..|rows| - 1], userId)
         + if rows[|rows| - 1].userId == userId then rows[|rows| - 1].score else 0
  }

  function LedgerPoints(rows: seq<ScoreEvent>, userId: Id): int {
    if rows == [] then 0
    else LedgerPoints(rows[..|rows| - 1], userId)
         + if rows[|rows| - 1].userId == userId then rows[|rows| - 1].pointsDelta else 0
  }

  lemma {:induction false} BookedSumsAgree(results: seq<ChallengeResult>, events: seq<ScoreEvent>, userId: Id)
    requires |results| == |events|
    requires forall i :: 0 <= i < |results| ==> Booked(events[i], results[i])
    ensures ResultPoints(results, userId) == LedgerPoints(events, userId)
  {
    if results != [] {
      BookedSumsAgree(results[..|results| - 1], events[..|events| - 1], userId);
    }
  }

  /** Conservation: in every state reached from balanced tables, each user's
      ledger adds up to exactly that user's result scores. */
  lemma PointsConserved(t: Tables, calls: seq<Call>, userId: Id)
    requires LedgerInvariant(t.scores)
    ensures LedgerPoints(ApplyAll(t, calls).scores.events, userId) == ResultPoints(ApplyAll(t, calls).scores.results, userId)
  {
    LedgerReachable(t, calls);
    var end := ApplyAll(t, calls).scores;
    BookedSumsAgree(end.results, end.events, userId);
  }

  /** A result is stored exactly when its run has none and the constraints hold;
      then the submitter's ledger grows by the awarded points, and a second save
      for the run changes nothing. */
  lemma SaveExactlyOnce(t: Tables, r: ChallengeResult)
    ensures var after := SaveChallengeResult(t, r);
            if Storable(t, r) && (forall i :: 0 <= i < |t.scores.results| ==> t.scores.results[i].runId != r.runId)
            then after.results == t.scores.results + [r]
                 && after.events == t.scores.events + [ScoreEventFor(t.accounts, r)]
                 && LedgerPoints(after.events, r.userId) == LedgerPoints(t.scores.events, r.userId) + r.score
                 && (forall q: ChallengeResult :: q.runId == r.runId ==> SaveChallengeResult(t.(scores := after), q) == after)
            else after == t.scores
  {
    var after := SaveChallengeResult(t, r);
    if after != t.scores {
      assert after.events[..|t.scores.events|] == t.scores.events;
      assert after.results[|t.scores.results|] == r;
    }
  }
}
