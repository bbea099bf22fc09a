/** The content validator as it runs: loops that fill a map of public questions and
    sets of identifiers, and stop at the first violation. */
module ContractChecker {
  import opened Wrappers
  import opened Sorting
  import opened Questions
  import opened ContentContract

  // ----- Counting identifiers -----

  lemma MembersAppend(ids: seq<string>, id: string)
    ensures Members(ids + [id]) == Members(ids) + {id}
  {}

  /** No identifier repeats exactly when there are as many of them as places. */
  lemma {:induction false} DistinctIffAsMany(ids: seq<string>)
    ensures |Members(ids)| <= |ids|
    ensures |Members(ids)| == |ids| <==> Distinct(ids)
  {
    if ids != [] {
      var last := |ids| - 1;
      assert ids == ids[..last] + [ids[last]];
      DistinctIffAsMany(ids[..last]);
      MembersGrow(ids[..last], ids[last]);
      AppendFresh(ids[..last], ids[last]);
    }
  }

  lemma MembersGrow(ids: seq<string>, id: string)
    ensures |Members(ids + [id])| == |Members(ids)| + if id in ids then 0 else 1
  {
    MembersAppend(ids, id);
    if id in ids { assert Members(ids) + {id} == Members(ids); }
  }

  lemma AppendFresh(ids: seq<string>, id: string)
    ensures Distinct(ids + [id]) <==> Distinct(ids) && id !in ids
  {
    var all := ids + [id];
    if Distinct(ids) && id !in ids {
      forall i, j | 0 <= i < j < |all| ensures all[i] != all[j] {
        if j == |ids| { assert ids[i] in ids; }
      }
    }
    if Distinct(all) {
      forall i, j | 0 <= i < j < |ids| ensures ids[i] != ids[j] { assert all[i] != all[j]; }
      forall i | 0 <= i < |ids| ensures ids[i] != id { assert all[i] != all[|ids|]; }
    }
  }

  // ----- Public questions -----

  predicate OptionOk(option: ChoiceOption) { Identifier(option.id, 80) && Text(option.text, 1, 500) }

  ghost predicate OptionsEachOk(options: seq<ChoiceOption>) {
    forall i :: 0 <= i < |options| ==> OptionOk(options[i])
  }

  lemma OptionsStep(options: seq<ChoiceOption>, i: nat)
    requires i < |options| && OptionsEachOk(options[..i])
    ensures OptionOk(options[i]) ==> OptionsEachOk(options[..i + 1])
    ensures !OptionOk(options[i]) ==> !OptionsEachOk(options)
    ensures OptionIds(options)[..i + 1] == OptionIds(options)[..i] + [options[i].id]
  {}

  method CollectOptionIds(options: seq<ChoiceOption>) returns (r: Option<set<string>>)
    ensures r.Some? <==> OptionsEachOk(options)
    ensures r.Some? ==> r.value == Members(OptionIds(options))
  {
    var ids: set<string> := {};
    for i := 0 to |options|
      invariant ids == Members(OptionIds(options)[..i])
      invariant OptionsEachOk(options[..i])
    {
      OptionsStep(options, i);
      if !OptionOk(options[i]) { return None; }
      MembersAppend(OptionIds(options)[..i], options[i].id);
      ids := ids + {options[i].id};
    }
    assert options[..|options|] == options && OptionIds(options)[..|options|] == OptionIds(options);
    r := Some(ids);
  }

  method CheckOptions(options: seq<ChoiceOption>) returns (ok: bool)
    ensures ok <==> OptionsOk(options)
  {
    if |options| < 2 || |options| > 8 { return false; }
    var ids := CollectOptionIds(options);
    DistinctIffAsMany(OptionIds(options));
    ok := ids.Some? && |ids.value| == |options|;
  }

  method CheckPublic(q: PublicQuestion, requested: set<QuestionType>) returns (ok: bool)
    ensures ok <==> PublicOk(q, requested)
  {
    if !Identifier(q.id, 80) || q.kind !in requested || ContainsAnswerKey(QuestionTree(q), 0) { return false; }
    if !Text(q.prompt, 10, 2000) || !Hangul(q.prompt) || !IntegerWithin(q.points, 1, 1000) { return false; }
    if Choice(q.kind) { ok := CheckOptions(q.options); } else { ok := true; }
  }

  datatype Collected = Collected(byId: map<string, PublicQuestion>, kinds: set<QuestionType>)

  ghost predicate CollectedFrom(c: Collected, questions: seq<PublicQuestion>) {
    && c.kinds == KindsOf(questions)
    && c.byId.Keys == Members(PublicIds(questions))
    && forall i :: 0 <= i < |questions| ==> questions[i].id in c.byId && c.byId[questions[i].id] == questions[i]
  }

  ghost predicate Collectable(questions: seq<PublicQuestion>, requested: set<QuestionType>) {
    (forall i :: 0 <= i < |questions| ==> PublicOk(questions[i], requested)) && Distinct(PublicIds(questions))
  }

  ghost predicate Collecting(c: Collected, questions: seq<PublicQuestion>, requested: set<QuestionType>) {
    CollectedFrom(c, questions) && Collectable(questions, requested)
  }

  method CollectQuestions(questions: seq<PublicQuestion>, requested: set<QuestionType>) returns (r: Option<Collected>)
    ensures r.Some? <==> Collectable(questions, requested)
    ensures r.Some? ==> CollectedFrom(r.value, questions)
  {
    var c := Collected(map[], {});
    for i := 0 to |questions|
      invariant Collecting(c, questions[..i], requested)
    {
      var q := questions[i];
      CollectStep(c, questions, i, requested);
      var ok := CheckPublic(q, requested);
      if !ok || q.id in c.byId { return None; }
      c := Collected(c.byId[q.id := q], c.kinds + {q.kind});
    }
    assert questions[..|questions|] == questions;
    r := Some(c);
  }

  lemma CollectStep(c: Collected, questions: seq<PublicQuestion>, i: nat, requested: set<QuestionType>)
    requires i < |questions| && Collecting(c, questions[..i], requested)
    ensures var q := questions[i];
            if PublicOk(q, requested) && q.id !in c.byId
            then Collecting(Collected(c.byId[q.id := q], c.kinds + {q.kind}), questions[..i + 1], requested)
            else !Collectable(questions, requested)
  {
    CollectOne(c, questions, i);
  }

  /** A question with a new identifier extends the collection; one whose identifier
      was collected before repeats it. */
  lemma CollectOne(c: Collected, questions: seq<PublicQuestion>, i: nat)
    requires i < |questions| && CollectedFrom(c, questions[..i]) && Distinct(PublicIds(questions[..i]))
    ensures var q := questions[i];
            q.id !in c.byId ==>
              && CollectedFrom(Collected(c.byId[q.id := q], c.kinds + {q.kind}), questions[..i + 1])
              && Distinct(PublicIds(questions[..i + 1]))
    ensures questions[i].id in c.byId ==> !Distinct(PublicIds(questions))
  {
    var q, earlier := questions[i], PublicIds(questions[..i]);
    assert questions[..i + 1] == questions[..i] + [q];
    assert PublicIds(questions[..i + 1]) == earlier + [q.id];
    if q.id in c.byId {
      assert q.id in Members(earlier);
      var k :| 0 <= k < i && earlier[k] == q.id;
      assert PublicIds(questions)[k] == PublicIds(questions)[i];
    } else {
      AppendFresh(earlier, q.id);
      MembersAppend(earlier, q.id);
      assert KindsOf(questions[..i + 1]) == KindsOf(questions[..i]) + {q.kind};
    }
  }

  // ----- Telemetry -----

  ghost predicate EventsOk(events: seq<Event>) {
    forall i :: 0 <= i < |events| ==> EventOk(events[i])
  }

  lemma EventsStep(events: seq<Event>, i: nat)
    requires i < |events| && EventsOk(events[..i])
    ensures EventOk(events[i]) ==> EventsOk(events[..i + 1])
    ensures !EventOk(events[i]) ==> !EventsOk(events)
    ensures EventIds(events)[..i + 1] == EventIds(events)[..i] + [events[i].id]
  {}

  method CollectEventIds(events: seq<Event>) returns (r: Option<set<string>>)
    ensures r.Some? <==> EventsOk(events) && Distinct(EventIds(events))
    ensures r.Some? ==> r.value == Members(EventIds(events))
  {
    var ids: set<string> := {};
    for i := 0 to |events|
      invariant ids == Members(EventIds(events)[..i])
      invariant EventsOk(events[..i])
    {
      EventsStep(events, i);
      if !EventOk(events[i]) { return None; }
      MembersAppend(EventIds(events)[..i], events[i].id);
      ids := ids + {events[i].id};
    }
    assert events[..|events|] == events && EventIds(events)[..|events|] == EventIds(events);
    DistinctIffAsMany(EventIds(events));
    r := if |ids| == |events| then Some(ids) else None;
  }

  /** `_telemetry_ids`: none for a team other than blue. */
  method CollectTelemetryIds(telemetry: Option<seq<Event>>, team: string) returns (r: Option<set<string>>)
    ensures r.Some? <==> TelemetryOk(telemetry, team)
    ensures r.Some? ==> r.value == TelemetryIds(telemetry, team)
  {
    if team != BLUE { return Some({}); }
    if telemetry.None? || |telemetry.value| < 1 || |telemetry.value| > 100 { return None; }
    r := CollectEventIds(telemetry.value);
  }

  // ----- Grading contracts -----

  lemma LookedUp(c: Collected, questions: seq<PublicQuestion>, hidden: Question, telemetry: set<string>, techniques: set<string>)
    requires CollectedFrom(c, questions)
    ensures HiddenOk(hidden, questions, telemetry, techniques)
       <==> Identifier(hidden.id, 80) && hidden.id in c.byId && PairOk(hidden, c.byId[hidden.id], telemetry, techniques)
  {
    if hidden.id in c.byId {
      var i :| 0 <= i < |questions| && PublicIds(questions)[i] == hidden.id;
      assert c.byId[questions[i].id] == questions[i];
    }
  }

  method CheckGrading(grading: seq<Question>, questions: seq<PublicQuestion>, c: Collected,
                      telemetry: set<string>, techniques: set<string>)
    returns (ok: bool)
    requires CollectedFrom(c, questions)
    ensures ok <==> GradingOk(grading, questions, telemetry, techniques)
  {
    if |grading| != |questions| { return false; }
    var ids: set<string> := {};
    for i := 0 to |grading|
      invariant ids == Members(Ids(grading)[..i])
      invariant forall j :: 0 <= j < i ==> HiddenOk(grading[j], questions, telemetry, techniques)
    {
      var hidden := grading[i];
      LookedUp(c, questions, hidden, telemetry, techniques);
      if !Identifier(hidden.id, 80) || hidden.id !in c.byId { return false; }
      if !PairOk(hidden, c.byId[hidden.id], telemetry, techniques) { return false; }
      assert Ids(grading)[..i + 1] == Ids(grading)[..i] + [hidden.id];
      ids := ids + {hidden.id};
    }
    assert Ids(grading)[..|grading|] == Ids(grading);
    ok := ids == c.byId.Keys;
  }

  method RequestedTypes(raw: seq<QuestionType>) returns (selected: seq<QuestionType>)
    ensures KindSet(selected) == KindSet(raw) && |selected| == |KindSet(raw)|
  {
    selected := [];
    ghost var seen: set<QuestionType> := {};
    for i := 0 to |raw|
      invariant seen == KindSet(raw[..i])
      invariant seen == KindSet(selected)
      invariant |selected| == |seen|
    {
      assert raw[..i + 1] == raw[..i] + [raw[i]];
      if raw[i] !in selected {
        seen := seen + {raw[i]};
        selected := selected + [raw[i]];
      }
      assert seen == KindSet(raw[..i + 1]);
    }
    assert raw[..|raw|] == raw;
  }

  method CheckQuestions(questions: seq<PublicQuestion>, request: ContentRequest) returns (r: Option<Collected>)
    ensures r.Some? <==> QuestionsOk(questions, request)
    ensures r.Some? ==> CollectedFrom(r.value, questions)
  {
    var selected := RequestedTypes(request.questionTypes);
    var requested := KindSet(selected);
    assert requested == Requested(request);
    var fewest := if request.team == BLUE then 6 else if |selected| > 4 then |selected| else 4;
    if |questions| < fewest || |questions| > 20 { return None; }
    r := CollectQuestions(questions, requested);
    if r.None? { return None; }
    var kinds := r.value.kinds;
    if kinds != requested { return None; }
    if request.team == BLUE {
      if kinds != BLUE_QUESTIONS { return None; }
      if CountOf(questions, ElkSearch) < 3 || CountOf(questions, MitreAttack) < 3 { return None; }
    }
    if request.team == RED && !(kinds <= RED_QUESTIONS) { return None; }
  }

  /** The whole check accepts exactly the packages that meet the contract. */
  method ValidateGeneratedContent(sha256: string -> string, p: TrainingPackage, request: ContentRequest) returns (ok: bool)
    ensures ok <==> Accepts(sha256, p, request)
  {
    if !LearningOk(p.learning, request.team) { return false; }
    var collected := CheckQuestions(p.questions, request);
    if collected.None? { return false; }
    var telemetry := CollectTelemetryIds(p.spec.telemetry, request.team);
    if telemetry.None? || !ChainOk(p.scenario.chain) { return false; }
    var graded := CheckGrading(p.grading, p.questions, collected.value, telemetry.value, AttackIds(p.scenario.chain));
    if !graded { return false; }
    ok := BuildSpecOk(sha256, p, request);
  }
}
