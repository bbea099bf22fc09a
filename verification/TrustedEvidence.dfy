/** Evidence from outside the submission: what the grading service may return, how
    it is merged with stored evidence, and the development grader's own verdicts. */
module TrustedEvidence {
  import opened Wrappers
  import opened Sorting
  import opened Questions
  import opened Grading

  datatype EvidenceFault = NotGradable(index: nat) | Repeated(index: nat) | InvalidFields(index: nat)

  /** The row of a `Map` built from the questions: of equal identifiers the last one. */
  function QuestionFor(questions: seq<Question>, id: string): Option<Question> {
    var rows := ById(Ids(questions), questions);
    if id in rows then Some(rows[id]) else None
  }

  predicate Expected(questions: seq<Question>, e: Evidence) {
    var q := QuestionFor(questions, e.questionId);
    q.Some? && SourceFor(q.value.kind) == Some(e.source)
  }

  // ----- What the service may return -----

  function FaultAt(items: seq<Evidence>, questions: seq<Question>, i: nat): Option<EvidenceFault>
    requires i < |items|
  {
    if !Expected(questions, items[i]) then Some(NotGradable(i))
    else if items[i].questionId in EvidenceIds(items[..i]) then Some(Repeated(i))
    else if !ValidEvidence(items[i]) then Some(InvalidFields(i))
    else None
  }

  ghost predicate Acceptable(items: seq<Evidence>, questions: seq<Question>) {
    && Distinct(EvidenceIds(items))
    && forall i :: 0 <= i < |items| ==> Expected(questions, items[i]) && ValidEvidence(items[i])
  }

  function FirstSome<T>(found: seq<Option<T>>): Option<T> {
    if found == [] then None
    else
      var earlier := FirstSome(found[..|found| - 1]);
      if earlier.Some? then earlier else found[|found| - 1]
  }

  lemma {:induction false} NoneIff<T>(found: seq<Option<T>>)
    ensures FirstSome(found).None? <==> forall i :: 0 <= i < |found| ==> found[i].None?
    decreases |found|
  {
    if found != [] { NoneIff(found[..|found| - 1]); }
  }

  lemma NoneSoFar<T>(found: seq<Option<T>>, i: nat)
    requires i < |found| && FirstSome(found[..i]).None?
    ensures FirstSome(found[..i + 1]) == found[i]
  {
    assert found[..i + 1][..i] == found[..i];
  }

  lemma IdsSoFar(items: seq<Evidence>, i: nat)
    requires i < |items|
    ensures EvidenceIds(items[..i + 1]) == EvidenceIds(items[..i]) + [items[i].questionId]
  {}

  /** Once met, a fault is the one that is reported. */
  lemma {:induction false} FirstKept<T>(found: seq<Option<T>>, i: nat)
    requires i < |found| && FirstSome(found[..i]).None? && found[i].Some?
    ensures FirstSome(found) == found[i]
    decreases |found|
  {
    var last := |found| - 1;
    if i < last {
      assert found[..last][..i] == found[..i];
      FirstKept(found[..last], i);
    }
  }

  function FaultsOf(items: seq<Evidence>, questions: seq<Question>): (faults: seq<Option<EvidenceFault>>)
    ensures |faults| == |items|
  {
    seq(|items|, i requires 0 <= i < |items| => FaultAt(items, questions, i))
  }

  /** The first fault in the order of the items. */
  function EvidenceFaultOf(items: seq<Evidence>, questions: seq<Question>): Option<EvidenceFault> {
    FirstSome(FaultsOf(items, questions))
  }

  /** No fault is met exactly when the list is acceptable. */
  lemma NoEvidenceFaultIff(items: seq<Evidence>, questions: seq<Question>)
    ensures EvidenceFaultOf(items, questions).None? <==> Acceptable(items, questions)
  {
    var faults := FaultsOf(items, questions);
    NoneIff(faults);
    if EvidenceFaultOf(items, questions).None? {
      forall i | 0 <= i < |items| ensures FaultAt(items, questions, i).None? { assert faults[i].None?; }
      FaultlessAccepted(items, questions);
    } else {
      var i :| 0 <= i < |faults| && faults[i].Some?;
      FaultRefused(items, questions, i);
    }
  }

  lemma FaultReported(items: seq<Evidence>, questions: seq<Question>, i: nat)
    requires i < |items| && FirstSome(FaultsOf(items, questions)[..i]).None? && FaultAt(items, questions, i).Some?
    ensures EvidenceFaultOf(items, questions) == FaultAt(items, questions, i) && !Acceptable(items, questions)
  {
    FirstKept(FaultsOf(items, questions), i);
    FaultRefused(items, questions, i);
  }

  /** Item by item with a set of identifiers seen; the first fault is reported, and
      what gets through is the evidence itself. */
  method ValidateTrustedGradeEvidence(items: seq<Evidence>, questions: seq<Question>)
    returns (r: Result<seq<Evidence>, EvidenceFault>)
    ensures r.Ok? <==> Acceptable(items, questions)
    ensures r.Ok? ==> r.value == items && EvidenceFaultOf(items, questions) == None
    ensures r.Err? ==> EvidenceFaultOf(items, questions) == Some(r.error)
  {
    ghost var faults := FaultsOf(items, questions);
    var seen: set<string> := {};
    for i := 0 to |items|
      invariant seen == set id | id in EvidenceIds(items[..i])
      invariant FirstSome(faults[..i]).None?
    {
      NoneSoFar(faults, i);
      var item := items[i];
      IdsSoFar(items, i);
      if !Expected(questions, item) { FaultReported(items, questions, i); return Err(NotGradable(i)); }
      if item.questionId in seen { FaultReported(items, questions, i); return Err(Repeated(i)); }
      if !ValidEvidence(item) { FaultReported(items, questions, i); return Err(InvalidFields(i)); }
      seen := seen + {item.questionId};
    }
    assert faults[..|items|] == faults;
    NoEvidenceFaultIff(items, questions);
    r := Ok(items);
  }

  lemma FaultRefused(items: seq<Evidence>, questions: seq<Question>, i: nat)
    requires i < |items| && FaultAt(items, questions, i).Some?
    ensures !Acceptable(items, questions)
  {
    if items[i].questionId in EvidenceIds(items[..i]) {
      var j :| 0 <= j < i && EvidenceIds(items[..i])[j] == items[i].questionId;
      assert EvidenceIds(items)[j] == EvidenceIds(items)[i];
    }
  }

  lemma FaultlessAccepted(items: seq<Evidence>, questions: seq<Question>)
    requires forall i :: 0 <= i < |items| ==> FaultAt(items, questions, i).None?
    ensures Acceptable(items, questions)
  {
    forall i, j | 0 <= i < j < |items| ensures EvidenceIds(items)[i] != EvidenceIds(items)[j] {
      assert FaultAt(items, questions, j).None?;
      assert EvidenceIds(items[..j])[i] == items[i].questionId;
    }
    forall i | 0 <= i < |items| ensures Expected(questions, items[i]) && ValidEvidence(items[i]) {
      assert FaultAt(items, questions, i).None?;
    }
  }

  // ----- Merging -----

  /** Setting a `Map` entry: an identifier keeps the place where it was first set. */
  function Set(rows: seq<Evidence>, e: Evidence): seq<Evidence> {
    if rows == [] then [e]
    else if rows[0].questionId == e.questionId then [e] + rows[1..]
    else [rows[0]] + Set(rows[1..], e)
  }

  function Merged(items: seq<Evidence>): seq<Evidence> {
    if items == [] then [] else Set(Merged(items[..|items| - 1]), items[|items| - 1])
  }

  method MergeTrustedGradeEvidence(stored: seq<Evidence>, generated: seq<Evidence>) returns (merged: seq<Evidence>)
    ensures merged == Merged(stored + generated)
  {
    merged := [];
    for i := 0 to |stored|
      invariant merged == Merged(stored[..i])
    {
      assert stored[..i + 1][..i] == stored[..i];
      merged := Set(merged, stored[i]);
    }
    assert stored[..|stored|] == stored && stored + generated[..0] == stored;
    for i := 0 to |generated|
      invariant merged == Merged(stored + generated[..i])
    {
      assert (stored + generated[..i + 1])[..|stored| + i] == stored + generated[..i];
      merged := Set(merged, generated[i]);
    }
    assert generated[..|generated|] == generated;
  }

  lemma {:induction false} SetRows(rows: seq<Evidence>, e: Evidence)
    requires Distinct(EvidenceIds(rows))
    ensures Distinct(EvidenceIds(Set(rows, e)))
    ensures forall x :: x in Set(rows, e) <==> x == e || (x in rows && x.questionId != e.questionId)
  {
    if rows != [] && rows[0].questionId != e.questionId {
      assert EvidenceIds(rows)[1..] == EvidenceIds(rows[1..]);
      SetRows(rows[1..], e);
      var rest := Set(rows[1..], e);
      forall j | 0 <= j < |rest| ensures rest[j].questionId != rows[0].questionId {
        assert rest[j] in rest;
        if rest[j] in rows[1..] {
          var k :| 0 <= k < |rows[1..]| && rows[1..][k] == rest[j];
          assert EvidenceIds(rows)[k + 1] == rest[j].questionId && EvidenceIds(rows)[0] == rows[0].questionId;
        }
      }
      DistinctCons(rows[0], rest);
    } else if rows != [] {
      assert EvidenceIds(Set(rows, e)) == EvidenceIds(rows);
      forall x | x in rows[1..] ensures x.questionId != e.questionId {
        var k :| 0 <= k < |rows[1..]| && rows[1..][k] == x;
        assert EvidenceIds(rows)[k + 1] == x.questionId && EvidenceIds(rows)[0] == rows[0].questionId;
      }
    }
  }

  lemma DistinctCons(first: Evidence, rest: seq<Evidence>)
    requires Distinct(EvidenceIds(rest))
    requires forall j :: 0 <= j < |rest| ==> rest[j].questionId != first.questionId
    ensures Distinct(EvidenceIds([first] + rest))
  {
    assert EvidenceIds([first] + rest) == [first.questionId] + EvidenceIds(rest);
  }

  /** `e` is the last item for its question. */
  ghost predicate LastFor(items: seq<Evidence>, e: Evidence) {
    exists i :: 0 <= i < |items| && items[i] == e && forall j :: i < j < |items| ==> items[j].questionId != e.questionId
  }

  lemma LastForStep(items: seq<Evidence>, e: Evidence)
    requires items != []
    ensures LastFor(items, e)
       <==> e == items[|items| - 1]
            || (LastFor(items[..|items| - 1], e) && items[|items| - 1].questionId != e.questionId)
  {
    var last := |items| - 1;
    if LastFor(items, e) {
      var i :| 0 <= i < |items| && items[i] == e && forall j :: i < j < |items| ==> items[j].questionId != e.questionId;
      if i < last { assert items[..last][i] == e; }
    }
    if LastFor(items[..last], e) && items[last].questionId != e.questionId {
      var i :| 0 <= i < last && items[..last][i] == e && forall j :: i < j < last ==> items[..last][j].questionId != e.questionId;
      assert items[i] == e;
      assert forall j :: i < j < last ==> items[j] == items[..last][j];
    }
    if e == items[last] { assert items[last] == e; }
  }

  /** One row for each question that either list mentions: the last one, so evidence
      generated now replaces what was stored. */
  lemma {:induction false} MergedIsLastPerQuestion(items: seq<Evidence>)
    ensures Distinct(EvidenceIds(Merged(items)))
    ensures forall e :: e in Merged(items) <==> LastFor(items, e)
    ensures forall e :: e in Merged(items) ==> e in items
  {
    if items != [] {
      var last := |items| - 1;
      MergedIsLastPerQuestion(items[..last]);
      SetRows(Merged(items[..last]), items[last]);
      forall e ensures e in Merged(items) <==> LastFor(items, e) { LastForStep(items, e); }
    }
  }

  lemma GeneratedIsLast(stored: seq<Evidence>, generated: seq<Evidence>, i: nat)
    requires Distinct(EvidenceIds(generated)) && i < |generated|
    ensures LastFor(stored + generated, generated[i])
  {
    var both := stored + generated;
    var at := |stored| + i;
    assert both[at] == generated[i];
    forall j | at < j < |both| ensures both[j].questionId != both[at].questionId {
      assert EvidenceIds(generated)[i] != EvidenceIds(generated)[j - |stored|];
    }
  }

  lemma StoredIsLast(stored: seq<Evidence>, generated: seq<Evidence>, i: nat)
    requires Distinct(EvidenceIds(stored)) && i < |stored|
    requires stored[i].questionId !in EvidenceIds(generated)
    ensures LastFor(stored + generated, stored[i])
  {
    var both := stored + generated;
    assert both[i] == stored[i];
    forall j | i < j < |both| ensures both[j].questionId != both[i].questionId {
      if j < |stored| { assert EvidenceIds(stored)[i] != EvidenceIds(stored)[j]; }
      else { assert EvidenceIds(generated)[j - |stored|] == both[j].questionId; }
    }
  }

  /** Merging two acceptable lists gives an acceptable list again, so evidence that
      passed validation can never make grading fail. */
  lemma MergeAcceptable(stored: seq<Evidence>, generated: seq<Evidence>, questions: seq<Question>)
    requires Acceptable(stored, questions) && Acceptable(generated, questions)
    ensures Acceptable(Merged(stored + generated), questions)
    ensures forall i :: 0 <= i < |generated| ==> generated[i] in Merged(stored + generated)
    ensures forall i :: 0 <= i < |stored| && stored[i].questionId !in EvidenceIds(generated) ==>
              stored[i] in Merged(stored + generated)
  {
    var both := stored + generated;
    MergedIsLastPerQuestion(both);
    forall i | 0 <= i < |Merged(both)|
      ensures Expected(questions, Merged(both)[i]) && ValidEvidence(Merged(both)[i])
    {
      assert Merged(both)[i] in both;
    }
    forall i | 0 <= i < |generated| ensures generated[i] in Merged(both) { GeneratedIsLast(stored, generated, i); }
    forall i | 0 <= i < |stored| && stored[i].questionId !in EvidenceIds(generated) ensures stored[i] in Merged(both) {
      StoredIsLast(stored, generated, i);
    }
  }

  // ----- The development grader -----

  const ELK_POLICY := "development-evidence-v1"
  const RUBRIC_POLICY := "development-rubric-v1"

  function EventIdentifiers(values: seq<Value>): set<string> {
    set v | v in values && v.Str? && Identifier(v.text, 128) :: v.text
  }

  /** The search found exactly the expected events, all of them in the telemetry. */
  predicate SearchPasses(q: Question, response: Response, telemetry: set<string>) {
    var submitted := if response.SearchResponse? then EventIdentifiers(response.evidenceIds) else {};
    var expected := EventIdentifiers(q.key.expectedEvidenceIds);
    && response.SearchResponse? && Trim(response.query) != ""
    && expected != {} && submitted <= telemetry && submitted == expected
  }

  function WrittenRatio(response: Response): real {
    var length := if response.TextResponse? then |Trim(response.text)| else 0;
    if length >= 80 then 1.0 else if length >= 40 then 0.5 else 0.0
  }

  /** Of several answers to a question the last one counts here. */
  function Verdict(q: Question, answers: seq<Answer>, telemetry: set<string>, runId: string): seq<Evidence> {
    var response := ResponseTo(answers, q.id);
    match q.kind
    case ElkSearch =>
      var passed := SearchPasses(q, response, telemetry);
      [Evidence(q.id, Elk, passed, if passed then 1.0 else 0.0, ELK_POLICY, "development-elk/" + runId + "/" + q.id)]
    case FreeText =>
      var ratio := WrittenRatio(response);
      [Evidence(q.id, AiRubric, ratio > 0.0, ratio, RUBRIC_POLICY, "development-rubric/" + runId + "/" + q.id)]
    case _ => []
  }

  function Verdicts(questions: seq<Question>, answers: seq<Answer>, telemetry: set<string>, runId: string): seq<Evidence> {
    if questions == [] then []
    else Verdicts(questions[..|questions| - 1], answers, telemetry, runId)
         + Verdict(questions[|questions| - 1], answers, telemetry, runId)
  }

  lemma {:induction false} VerdictRow(questions: seq<Question>, answers: seq<Answer>, telemetry: set<string>, runId: string,
                                      e: Evidence)
    requires e in Verdicts(questions, answers, telemetry, runId)
    ensures exists i :: 0 <= i < |questions| && e in Verdict(questions[i], answers, telemetry, runId)
  {
    var last := |questions| - 1;
    if e in Verdict(questions[last], answers, telemetry, runId) {
    } else {
      VerdictRow(questions[..last], answers, telemetry, runId, e);
      var i :| 0 <= i < last && e in Verdict(questions[..last][i], answers, telemetry, runId);
      assert questions[..last][i] == questions[i];
    }
  }

  lemma {:induction false} VerdictIncluded(questions: seq<Question>, answers: seq<Answer>, telemetry: set<string>,
                                           runId: string, i: nat)
    requires i < |questions|
    ensures forall e :: e in Verdict(questions[i], answers, telemetry, runId) ==>
              e in Verdicts(questions, answers, telemetry, runId)
  {
    var last := |questions| - 1;
    if i < last { VerdictIncluded(questions[..last], answers, telemetry, runId, i); }
  }

  /** Trimming never removes a character that is not white space. */
  lemma {:induction false} TrimKeeps(s: string, i: nat)
    requires i < |s| && !IsSpace(s[i])
    ensures Trim(s) != ""
    decreases |s|
  {
    if IsSpace(s[0]) {
      TrimKeeps(s[1..], i - 1);
    } else if IsSpace(s[|s| - 1]) {
      TrimKeeps(s[..|s| - 1], i);
    }
  }

  lemma VerdictValid(q: Question, answers: seq<Answer>, telemetry: set<string>, runId: string)
    ensures forall e :: e in Verdict(q, answers, telemetry, runId) ==>
              ValidEvidence(e) && e.questionId == q.id && SourceFor(q.kind) == Some(e.source)
  {
    TrimKeeps(ELK_POLICY, 0);
    TrimKeeps(RUBRIC_POLICY, 0);
    TrimKeeps("development-elk/" + runId + "/" + q.id, 0);
    TrimKeeps("development-rubric/" + runId + "/" + q.id, 0);
  }

  lemma DistinctAppend(a: seq<string>, b: seq<string>)
    requires Distinct(a) && Distinct(b)
    requires forall x :: x in a ==> x !in b
    ensures Distinct(a + b)
  {
    forall i, j | 0 <= i < j < |a + b| ensures (a + b)[i] != (a + b)[j] {
      if i < |a| <= j { assert a[i] in a && b[j - |a|] in b; }
    }
  }

  lemma DistinctInit(questions: seq<Question>)
    requires questions != [] && Distinct(Ids(questions))
    ensures Distinct(Ids(questions[..|questions| - 1]))
    ensures questions[|questions| - 1].id !in Ids(questions[..|questions| - 1])
    ensures Ids(questions) == Ids(questions[..|questions| - 1]) + [questions[|questions| - 1].id]
  {
    var last := |questions| - 1;
    var earlier := Ids(questions[..last]);
    assert Ids(questions) == earlier + [questions[last].id];
    assert forall i :: 0 <= i < last ==> earlier[i] == Ids(questions)[i];
    assert Ids(questions)[last] == questions[last].id;
  }

  lemma {:induction false} VerdictIdsDistinct(questions: seq<Question>, answers: seq<Answer>, telemetry: set<string>, runId: string)
    requires Distinct(Ids(questions))
    ensures Distinct(EvidenceIds(Verdicts(questions, answers, telemetry, runId)))
    ensures forall id :: id in EvidenceIds(Verdicts(questions, answers, telemetry, runId)) ==> id in Ids(questions)
  {
    if questions != [] {
      var last := |questions| - 1;
      DistinctInit(questions);
      VerdictIdsDistinct(questions[..last], answers, telemetry, runId);
      var earlier := Verdicts(questions[..last], answers, telemetry, runId);
      var added := Verdict(questions[last], answers, telemetry, runId);
      assert forall id :: id in EvidenceIds(added) ==> id == questions[last].id;
      assert EvidenceIds(earlier + added) == EvidenceIds(earlier) + EvidenceIds(added);
      DistinctAppend(EvidenceIds(earlier), EvidenceIds(added));
    }
  }

  /** The development grader always honours the evidence contract. */
  lemma DevelopmentGraderAcceptable(questions: seq<Question>, answers: seq<Answer>, telemetry: set<string>, runId: string)
    requires Distinct(Ids(questions))
    ensures Acceptable(Verdicts(questions, answers, telemetry, runId), questions)
  {
    var items := Verdicts(questions, answers, telemetry, runId);
    VerdictIdsDistinct(questions, answers, telemetry, runId);
    forall k | 0 <= k < |items| ensures Expected(questions, items[k]) && ValidEvidence(items[k]) {
      VerdictRow(questions, answers, telemetry, runId, items[k]);
      var i :| 0 <= i < |questions| && items[k] in Verdict(questions[i], answers, telemetry, runId);
      VerdictValid(questions[i], answers, telemetry, runId);
      ByIdRow(Ids(questions), questions, i);
    }
  }
}
