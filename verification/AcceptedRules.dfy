/** What acceptance by the content service says about a package, rule by rule and in
    numbers. */
module AcceptedRules {
  import opened Wrappers
  import opened Sorting
  import opened Questions
  import opened ContentContract
  import opened GradableContent
  import opened Submission

  const ANSWER_WORDS := {"answer", "answerkey", "correct", "correctanswer", "correctoption", "correctoptions", "solution", "flag"}

  /** No member anywhere inside is named like an answer, in any spelling of the case. */
  ghost predicate NoAnswers(t: Tree) { forall name :: Lower(name) in ANSWER_WORDS ==> !Occurs(t, name) }

  lemma ScannedClean(t: Tree)
    requires !ContainsAnswerKey(t, 0)
    ensures NoAnswers(t) && !Reaches(t, 13)
  {
    ScanFinds(t, 0);
    forall name | Lower(name) in ANSWER_WORDS ensures !Occurs(t, name) { assert AnswerName(name); }
  }

  lemma ExtraOccurs(q: PublicQuestion, i: nat, name: string)
    requires i < |q.extra|
    ensures q.extra[i].name == name || Occurs(q.extra[i].value, name) ==> Occurs(QuestionTree(q), name)
  {
    var members := QuestionTree(q).members;
    assert members[5 + i] == q.extra[i];
  }

  /** Neither a public question nor a telemetry event gives an answer away. */
  lemma AcceptedHidesAnswers(sha256: string -> string, p: TrainingPackage, request: ContentRequest)
    requires Accepts(sha256, p, request)
    ensures forall i, k :: 0 <= i < |p.questions| && 0 <= k < |p.questions[i].extra| ==>
              Lower(p.questions[i].extra[k].name) !in ANSWER_WORDS && NoAnswers(p.questions[i].extra[k].value)
    ensures request.team == "blue" ==>
              p.spec.telemetry.Some? && forall i :: 0 <= i < |p.spec.telemetry.value| ==> NoAnswers(p.spec.telemetry.value[i].document)
  {
    forall i, k | 0 <= i < |p.questions| && 0 <= k < |p.questions[i].extra|
      ensures Lower(p.questions[i].extra[k].name) !in ANSWER_WORDS && NoAnswers(p.questions[i].extra[k].value)
    {
      var q := p.questions[i];
      assert PublicOk(q, Requested(request));
      ScannedClean(QuestionTree(q));
      ExtraOccurs(q, k, q.extra[k].name);
      forall name | Lower(name) in ANSWER_WORDS ensures !Occurs(q.extra[k].value, name) { ExtraOccurs(q, k, name); }
    }
    if request.team == "blue" {
      forall i | 0 <= i < |p.spec.telemetry.value| ensures NoAnswers(p.spec.telemetry.value[i].document) {
        assert EventOk(p.spec.telemetry.value[i]);
        ScannedClean(p.spec.telemetry.value[i].document);
      }
    }
  }

  // ----- Questions in numbers -----

  lemma QuestionFits(q: PublicQuestion, request: ContentRequest)
    requires PublicOk(q, Requested(request))
    ensures q.kind in request.questionTypes && 10 <= |q.prompt| <= 2000 && 1 <= |q.id| <= 80
    ensures exists k :: 0 <= k < |q.prompt| && 0xAC00 <= q.prompt[k] as int <= 0xD7A3
    ensures q.points.Int? && 1 <= q.points.n <= 1000
    ensures q.kind == SingleChoice || q.kind == MultipleChoice ==> OptionsInNumbers(q.options)
  {
    if q.kind == SingleChoice || q.kind == MultipleChoice { OptionsFit(q.options); }
    assert Hangul(q.prompt) && q.kind in Requested(request);
  }

  lemma KindAsked(questions: seq<PublicQuestion>, kind: QuestionType)
    requires kind in KindsOf(questions)
    ensures exists i :: 0 <= i < |questions| && questions[i].kind == kind
  {
    var q :| q in questions && q.kind == kind;
    var i :| 0 <= i < |questions| && questions[i] == q;
    assert questions[i].kind == kind;
  }

  lemma QuestionRules(questions: seq<PublicQuestion>, request: ContentRequest)
    requires QuestionsOk(questions, request)
    ensures |questions| <= 20 && |questions| >= (if request.team == "blue" then 6 else 4)
    ensures forall i :: 0 <= i < |questions| ==> PublicOk(questions[i], Requested(request))
    ensures forall i, j :: 0 <= i < j < |questions| ==> questions[i].id != questions[j].id
    ensures KindsOf(questions) == Requested(request)
    ensures request.team == "blue" ==>
              KindsOf(questions) == {ElkSearch, MitreAttack} && CountOf(questions, ElkSearch) >= 3 && CountOf(questions, MitreAttack) >= 3
  {
    forall i, j | 0 <= i < j < |questions| ensures questions[i].id != questions[j].id {
      assert PublicIds(questions)[i] != PublicIds(questions)[j];
    }
  }

  /** Between four or six and twenty questions, each with an identifier of its own, of a
      requested kind, asking in 10 to 2000 characters with some Hangul, and worth 1 to 1000
      points; every requested kind is asked. */
  lemma AcceptedQuestions(sha256: string -> string, p: TrainingPackage, request: ContentRequest)
    requires Accepts(sha256, p, request)
    ensures |p.questions| <= 20 && |p.questions| >= (if request.team == "blue" then 6 else 4)
    ensures forall i :: 0 <= i < |p.questions| ==> QuestionInNumbers(p.questions[i], request)
    ensures forall kind :: kind in request.questionTypes ==> exists i :: 0 <= i < |p.questions| && p.questions[i].kind == kind
    ensures forall i, j :: 0 <= i < j < |p.questions| ==> p.questions[i].id != p.questions[j].id
  {
    AcceptedGrading(sha256, p, request);
    QuestionRules(p.questions, request);
    forall i | 0 <= i < |p.questions| ensures QuestionInNumbers(p.questions[i], request) { QuestionFits(p.questions[i], request); }
    forall kind | kind in request.questionTypes ensures exists i :: 0 <= i < |p.questions| && p.questions[i].kind == kind {
      assert kind in Requested(request);
      KindAsked(p.questions, kind);
    }
  }

  ghost predicate QuestionInNumbers(q: PublicQuestion, request: ContentRequest) {
    && q.kind in request.questionTypes && 10 <= |q.prompt| <= 2000 && 1 <= |q.id| <= 80
    && (exists k :: 0 <= k < |q.prompt| && 0xAC00 <= q.prompt[k] as int <= 0xD7A3)
    && q.points.Int? && 1 <= q.points.n <= 1000
    && (q.kind == SingleChoice || q.kind == MultipleChoice ==> OptionsInNumbers(q.options))
  }

  /** Two to eight options with different identifiers. */
  ghost predicate OptionsInNumbers(options: seq<ChoiceOption>) {
    && 2 <= |options| <= 8
    && (forall a, b :: 0 <= a < b < |options| ==> options[a].id != options[b].id)
    && (forall a :: 0 <= a < |options| ==> 1 <= |options[a].id| <= 80 && 1 <= |options[a].text| <= 500)
  }

  lemma OptionsFit(options: seq<ChoiceOption>)
    requires OptionsOk(options)
    ensures OptionsInNumbers(options)
  {
    forall a, b | 0 <= a < b < |options| ensures options[a].id != options[b].id { assert OptionIds(options)[a] != OptionIds(options)[b]; }
  }

  /** Blue content asks at least three searches and three mappings, and nothing else. */
  lemma AcceptedBlue(sha256: string -> string, p: TrainingPackage, request: ContentRequest)
    requires Accepts(sha256, p, request) && request.team == "blue"
    ensures Thrice(p.questions, ElkSearch) && Thrice(p.questions, MitreAttack)
    ensures forall i :: 0 <= i < |p.questions| ==> p.questions[i].kind in {ElkSearch, MitreAttack}
  {
    AcceptedGrading(sha256, p, request);
    QuestionRules(p.questions, request);
    BlueKinds(p.questions);
  }

  lemma BlueKinds(questions: seq<PublicQuestion>)
    requires KindsOf(questions) == {ElkSearch, MitreAttack} && CountOf(questions, ElkSearch) >= 3 && CountOf(questions, MitreAttack) >= 3
    ensures Thrice(questions, ElkSearch) && Thrice(questions, MitreAttack)
    ensures forall i :: 0 <= i < |questions| ==> questions[i].kind in {ElkSearch, MitreAttack}
  {
    assert questions[..|questions|] == questions;
    ThreeCounted(questions, ElkSearch, |questions|);
    ThreeCounted(questions, MitreAttack, |questions|);
    forall i | 0 <= i < |questions| ensures questions[i].kind in {ElkSearch, MitreAttack} { assert questions[i].kind in KindsOf(questions); }
  }

  lemma AcceptedTelemetry(sha256: string -> string, p: TrainingPackage, request: ContentRequest)
    requires Accepts(sha256, p, request) && request.team == "blue"
    ensures p.spec.telemetry.Some? && 1 <= |p.spec.telemetry.value| <= 100
    ensures forall i, j :: 0 <= i < j < |p.spec.telemetry.value| ==> p.spec.telemetry.value[i].id != p.spec.telemetry.value[j].id
  {
    assert TelemetryOk(p.spec.telemetry, request.team);
    var events := p.spec.telemetry.value;
    forall i, j | 0 <= i < j < |events| ensures events[i].id != events[j].id { assert EventIds(events)[i] != EventIds(events)[j]; }
  }

  ghost predicate Thrice(questions: seq<PublicQuestion>, kind: QuestionType) {
    exists i, j, k :: 0 <= i < j < k < |questions| && AreThree(questions, kind, i, j, k)
  }

  predicate AreThree(questions: seq<PublicQuestion>, kind: QuestionType, i: nat, j: nat, k: nat)
    requires i < j < k < |questions|
  {
    questions[i].kind == kind && questions[j].kind == kind && questions[k].kind == kind
  }

  lemma {:induction false} OneCounted(questions: seq<PublicQuestion>, kind: QuestionType, n: nat) returns (i: nat)
    requires n <= |questions| && CountOf(questions[..n], kind) >= 1
    ensures i < n && questions[i].kind == kind && CountOf(questions[..i], kind) == CountOf(questions[..n], kind) - 1
  {
    assert questions[..n][..n - 1] == questions[..n - 1];
    if questions[n - 1].kind == kind { i := n - 1; } else { i := OneCounted(questions, kind, n - 1); }
  }

  lemma ThreeCounted(questions: seq<PublicQuestion>, kind: QuestionType, n: nat)
    requires n <= |questions| && CountOf(questions[..n], kind) >= 3
    ensures Thrice(questions, kind)
  {
    var k := OneCounted(questions, kind, n);
    var j := OneCounted(questions, kind, k);
    var i := OneCounted(questions, kind, j);
    assert AreThree(questions, kind, i, j, k);
  }

  // ----- Keys -----

  /** What a hidden question's key may name, given its public question. */
  ghost predicate KeyNames(hidden: Question, public: PublicQuestion, events: seq<Event>, chain: seq<string>) {
    match hidden.kind
    case SingleChoice =>
      hidden.key.optionIds.Some? && |hidden.key.optionIds.value| == 1 && AllOptions(hidden.key.optionIds.value, public.options)
    case MultipleChoice =>
      hidden.key.optionIds.Some? && hidden.key.optionIds.value != [] && AllOptions(hidden.key.optionIds.value, public.options)
    case MitreAttack => 1 <= |hidden.key.techniqueIds| <= 20 && AllTechniques(hidden.key.techniqueIds, chain)
    case ElkSearch => 1 <= |hidden.key.expectedEvidenceIds| <= 100 && AllEvents(hidden.key.expectedEvidenceIds, events)
    case FreeText => hidden.key.rubricId != ""
    case OtherType(_) => false
  }

  ghost predicate AllOptions(values: seq<Value>, options: seq<ChoiceOption>) {
    forall v :: v in values ==> exists k :: 0 <= k < |options| && options[k].id == Shown(v)
  }

  ghost predicate AllTechniques(values: seq<Value>, chain: seq<string>) {
    forall v :: v in values ==> exists k :: 0 <= k < |chain| && Upper(chain[k]) == Shown(v)
  }

  ghost predicate AllEvents(values: seq<Value>, events: seq<Event>) {
    forall v :: v in values ==> exists k :: 0 <= k < |events| && events[k].id == Shown(v)
  }

  lemma OptionsNamed(values: seq<Value>, options: seq<ChoiceOption>)
    requires ShownSet(values) <= Members(OptionIds(options))
    ensures AllOptions(values, options)
  {
    forall v | v in values ensures exists k :: 0 <= k < |options| && options[k].id == Shown(v) {
      assert Shown(v) in ShownSet(values);
      var k :| 0 <= k < |options| && OptionIds(options)[k] == Shown(v);
      assert options[k].id == Shown(v);
    }
  }

  lemma TechniquesNamed(values: seq<Value>, chain: seq<string>)
    requires ShownSet(values) <= AttackIds(chain)
    ensures AllTechniques(values, chain)
  {
    forall v | v in values ensures exists k :: 0 <= k < |chain| && Upper(chain[k]) == Shown(v) {
      assert Shown(v) in ShownSet(values);
    }
  }

  lemma EventsNamed(values: seq<Value>, events: seq<Event>)
    requires ShownSet(values) <= Members(EventIds(events))
    ensures AllEvents(values, events)
  {
    forall v | v in values ensures exists k :: 0 <= k < |events| && events[k].id == Shown(v) {
      assert Shown(v) in ShownSet(values);
      var k :| 0 <= k < |events| && EventIds(events)[k] == Shown(v);
      assert events[k].id == Shown(v);
    }
  }

  function EventsFor(p: TrainingPackage, request: ContentRequest): seq<Event> {
    if request.team == "blue" && p.spec.telemetry.Some? then p.spec.telemetry.value else []
  }

  lemma PairNames(hidden: Question, public: PublicQuestion, events: seq<Event>, chain: seq<string>)
    requires PairOk(hidden, public, Members(EventIds(events)), AttackIds(chain))
    ensures KeyNames(hidden, public, events, chain)
  {
    match hidden.kind
    case SingleChoice => OptionsNamed(hidden.key.optionIds.value, public.options);
    case MultipleChoice => OptionsNamed(hidden.key.optionIds.value, public.options);
    case MitreAttack => TechniquesNamed(hidden.key.techniqueIds, chain);
    case ElkSearch => EventsNamed(hidden.key.expectedEvidenceIds, events);
    case _ =>
  }

  /** Every hidden question has a public one of the same identifier, kind and points, and
      its key names only that question's options, or techniques of the attack chain, or
      events of the telemetry. */
  lemma AcceptedKeys(sha256: string -> string, p: TrainingPackage, request: ContentRequest, i: nat) returns (j: nat)
    requires Accepts(sha256, p, request) && i < |p.grading|
    ensures j < |p.questions| && p.grading[i].id == p.questions[j].id && p.grading[i].kind == p.questions[j].kind
    ensures p.questions[j].points.Int? && SameWorth(p.grading[i].points, p.questions[j].points.n)
    ensures KeyNames(p.grading[i], p.questions[j], EventsFor(p, request), p.scenario.chain)
  {
    j := AcceptedPair(sha256, p, request, i);
    PairInNames(p.grading[i], p.questions[j], p, request);
  }

  lemma PairInNames(hidden: Question, public: PublicQuestion, p: TrainingPackage, request: ContentRequest)
    requires PairOk(hidden, public, TelemetryIds(p.spec.telemetry, request.team), AttackIds(p.scenario.chain))
    ensures hidden.id == public.id && hidden.kind == public.kind && public.points.Int? && SameWorth(hidden.points, public.points.n)
    ensures KeyNames(hidden, public, EventsFor(p, request), p.scenario.chain)
  {
    NoEvents();
    assert TelemetryIds(p.spec.telemetry, request.team) == Members(EventIds(EventsFor(p, request)));
    PairNames(hidden, public, EventsFor(p, request), p.scenario.chain);
    WorthTheSame(hidden.points, public.points);
  }

  lemma WorthTheSame(hidden: Amount, public: Amount)
    requires SamePoints(hidden, public)
    ensures public.Int? && SameWorth(hidden, public.n)
  {}

  lemma NoEvents()
    ensures EventIds([]) == [] && Members(EventIds([])) == {}
  {}

  /** Equal for Python: the number itself, as an integer or not, or `true` for one. */
  predicate SameWorth(a: Amount, n: int) { a == Int(n) || a == Float(n as real) || (a == Truth(true) && n == 1) || (a == Truth(false) && n == 0) }

  // ----- The build specification -----

  /** The specification is for the request's team and prompt, says the same as the rest of
      the package, and isolates each run. */
  lemma AcceptedSpec(sha256: string -> string, p: TrainingPackage, request: ContentRequest)
    requires Accepts(sha256, p, request)
    ensures p.spec.version == 1 && p.spec.team == request.team && p.spec.promptDigest == "sha256:" + sha256(request.prompt)
    ensures p.spec.learning == p.learning && p.spec.questions == p.questions && p.spec.topology == p.topology
    ensures p.spec.summary == p.scenario.summary && p.spec.techniques == p.scenario.chain
    ensures |p.spec.cveIds| <= 20 && forall i :: 0 <= i < |p.spec.cveIds| ==> CveId(Upper(p.spec.cveIds[i]))
  {
    assert BuildSpecOk(sha256, p, request);
  }

  lemma SpecParts(sha256: string -> string, p: TrainingPackage, request: ContentRequest)
    requires Accepts(sha256, p, request)
    ensures TopologyOk(p.topology, p.spec.telemetry, request.team) && TargetOk(p.spec.target) && RefsOk(p.spec.hiddenRefs, p.questions)
    ensures LearningOk(p.learning, request.team) && ChainOk(p.scenario.chain)
  {
    assert BuildSpecOk(sha256, p, request);
  }

  /** Analysts work on a monitored target with the telemetry of the specification, operators
      attack a vulnerable one; every run has a machine of its own. */
  lemma AcceptedTopology(sha256: string -> string, p: TrainingPackage, request: ContentRequest)
    requires Accepts(sha256, p, request)
    ensures var t := p.topology;
            && t.version == 1 && t.team == request.team && t.isolation == "per_run" && t.hostname == "target" && t.unsupported == {}
            && (request.team == "blue" ==>
                  && t.role == "soc_analyst" && t.desktopImage == "ubuntu" && t.entrypoint == "kibana" && t.targetRole == "monitored_target"
                  && t.telemetry.Some? && p.spec.telemetry == Some(t.telemetry.value.events)
                  && t.telemetry.value.stack == "elastic" && t.telemetry.value.collector == "elastic_agent"
                  && t.telemetry.value.generator == "scenario_log_generator" && t.telemetry.value.unsupported == {})
            && (request.team != "blue" ==>
                  && t.role == "attack_operator" && t.desktopImage == "kali" && t.entrypoint == "target"
                  && t.targetRole == "vulnerable_target" && t.telemetry.None?)
  {
    SpecParts(sha256, p, request);
  }

  /** The corpus asked for is within the expander's limits and has room for the events. */
  lemma AcceptedGeneration(sha256: string -> string, p: TrainingPackage, request: ContentRequest)
    requires Accepts(sha256, p, request) && request.team == "blue"
    ensures p.topology.telemetry.Some?
    ensures var g := p.topology.telemetry.value.generation;
            && g.version == 1 && g.unsupported == {} && g.anchorIsDate && 1 <= |g.seed| <= 128
            && g.totalEvents.Int? && 100 <= g.totalEvents.n <= 5000 && g.timeRange.Int? && 15 <= g.timeRange.n <= 240
            && |p.topology.telemetry.value.events| <= g.totalEvents.n
  {
    SpecParts(sha256, p, request);
  }

  lemma ProbeFits(probe: Probe, protocol: string)
    requires ProbeOk(probe, protocol)
    ensures ProbeInNumbers(probe, protocol)
  {}

  lemma ArtifactFits(artifact: Artifact)
    requires ArtifactOk(artifact)
    ensures ArtifactInNumbers(artifact)
  {}

  ghost predicate ArtifactInNumbers(artifact: Artifact) {
    |artifact.sha256| == 64 && 8 <= |artifact.url| <= 2000 && artifact.url[..8] == "https://" && |artifact.destination| > 24
  }

  ghost predicate ProbeInNumbers(probe: Probe, protocol: string) {
    && 1 <= |probe.id| <= 80 && |probe.markers| <= 8
    && (protocol == "http" ==>
          && (probe.verb == "GET" || probe.verb == "HEAD") && probe.path != "" && probe.path[0] == '/' && |probe.path| <= 500
          && (forall i :: 0 <= i < |probe.path| ==> probe.path[i] != '\\')
          && 1 <= |probe.statuses| <= 8
          && forall i :: 0 <= i < |probe.statuses| ==> probe.statuses[i].Int? && 100 <= probe.statuses[i].n <= 599)
    && (protocol == "tcp" ==> probe.kind == "tcp_banner" && probe.markers != [])
  }

  /** One to twenty probes of each sort on a proper port; a vulnerability probe says what
      it proves. */
  ghost predicate TargetInNumbers(t: Target) {
    && t.port.Int? && 1 <= t.port.n <= 65535 && (t.protocol == "http" || t.protocol == "tcp")
    && 1 <= |t.functional| <= 20 && 1 <= |t.vulnerable| <= 20 && |t.packages| <= 100 && |t.artifacts| <= 20
    && (forall i :: 0 <= i < |t.vulnerable| ==> t.vulnerable[i].cveId != "" || t.vulnerable[i].findingId != "")
    && (forall i :: 0 <= i < |t.functional| ==> ProbeInNumbers(t.functional[i], t.protocol))
    && (forall i :: 0 <= i < |t.vulnerable| ==> ProbeInNumbers(t.vulnerable[i], t.protocol))
    && (forall i :: 0 <= i < |t.artifacts| ==> ArtifactInNumbers(t.artifacts[i]))
  }

  lemma TargetFitsNumbers(t: Target)
    requires TargetOk(t)
    ensures TargetInNumbers(t)
  {
    forall i | 0 <= i < |t.functional| ensures ProbeInNumbers(t.functional[i], t.protocol) { ProbeFits(t.functional[i], t.protocol); }
    forall i | 0 <= i < |t.vulnerable| ensures ProbeInNumbers(t.vulnerable[i], t.protocol) { ProbeFits(t.vulnerable[i], t.protocol); }
    forall i | 0 <= i < |t.artifacts| ensures ArtifactInNumbers(t.artifacts[i]) { ArtifactFits(t.artifacts[i]); }
  }

  lemma AcceptedTarget(sha256: string -> string, p: TrainingPackage, request: ContentRequest)
    requires Accepts(sha256, p, request)
    ensures TargetInNumbers(p.spec.target)
  {
    SpecParts(sha256, p, request);
    TargetFitsNumbers(p.spec.target);
  }

  ghost predicate Referred(refs: seq<HiddenRef>, id: string) { exists k :: 0 <= k < |refs| && refs[k].questionId == id }

  ghost predicate Asked(questions: seq<PublicQuestion>, id: string) { exists i :: 0 <= i < |questions| && questions[i].id == id }

  /** A reference leads to the grading service and pins the rubric by its digest. */
  predicate RefInWords(ref: HiddenRef) {
    |ref.refId| > 10 && ref.refId[..10] == "grading://" && |ref.rubricDigest| == 71 && ref.rubricDigest[..7] == "sha256:"
  }

  lemma RefFits(ref: HiddenRef, ids: set<string>)
    requires RefOk(ref, ids)
    ensures RefInWords(ref) && ref.questionId in ids
  {
    assert |"grading://"| == 10 && |"sha256:"| == 7;
  }

  /** Every public question has its hidden reference, and every reference a question. */
  lemma AcceptedRefs(sha256: string -> string, p: TrainingPackage, request: ContentRequest)
    requires Accepts(sha256, p, request)
    ensures |p.spec.hiddenRefs| == |p.questions|
    ensures forall i :: 0 <= i < |p.questions| ==> Referred(p.spec.hiddenRefs, p.questions[i].id)
    ensures forall k :: 0 <= k < |p.spec.hiddenRefs| ==> Asked(p.questions, p.spec.hiddenRefs[k].questionId) && RefInWords(p.spec.hiddenRefs[k])
  {
    SpecParts(sha256, p, request);
    var refs, questions := p.spec.hiddenRefs, p.questions;
    forall i | 0 <= i < |questions| ensures Referred(refs, questions[i].id) { QuestionReferred(refs, questions, i); }
    forall k | 0 <= k < |refs| ensures Asked(questions, refs[k].questionId) && RefInWords(refs[k]) { ReferenceAsked(refs, questions, k); }
  }

  lemma QuestionReferred(refs: seq<HiddenRef>, questions: seq<PublicQuestion>, i: nat)
    requires RefsOk(refs, questions) && i < |questions|
    ensures Referred(refs, questions[i].id)
  {
    assert PublicIds(questions)[i] in Members(PublicIds(questions));
    assert questions[i].id in (set r | r in refs :: r.questionId);
    var r :| r in refs && r.questionId == questions[i].id;
    var k :| 0 <= k < |refs| && refs[k] == r;
    assert refs[k].questionId == questions[i].id;
  }

  lemma ReferenceAsked(refs: seq<HiddenRef>, questions: seq<PublicQuestion>, k: nat)
    requires RefsOk(refs, questions) && k < |refs|
    ensures Asked(questions, refs[k].questionId) && RefInWords(refs[k])
  {
    RefFits(refs[k], Members(PublicIds(questions)));
    var i :| 0 <= i < |questions| && PublicIds(questions)[i] == refs[k].questionId;
    assert questions[i].id == refs[k].questionId;
  }

  /** Blue content teaches in at least six sections, other content in five, at most twelve,
      each of 20 to 20000 characters with some Hangul. */
  lemma AcceptedLearning(sha256: string -> string, p: TrainingPackage, request: ContentRequest)
    requires Accepts(sha256, p, request)
    ensures (if request.team == "blue" then 6 else 5) <= |p.learning.sections| <= 12
    ensures forall i :: 0 <= i < |p.learning.sections| ==>
              var s := p.learning.sections[i];
              3 <= |s.title| <= 120 && 20 <= |s.body| <= 20000 && Hangul(s.title + " " + s.body)
    ensures 1 <= |p.scenario.chain| <= 50 && forall i :: 0 <= i < |p.scenario.chain| ==> PyTechnique(Upper(p.scenario.chain[i]))
  {
    SpecParts(sha256, p, request);
    forall i | 0 <= i < |p.learning.sections|
      ensures 3 <= |p.learning.sections[i].title| <= 120 && 20 <= |p.learning.sections[i].body| <= 20000
      ensures Hangul(p.learning.sections[i].title + " " + p.learning.sections[i].body)
    {
      assert SectionOk(p.learning.sections[i]);
    }
  }

  // ----- What the API takes over -----

  predicate PublicInNumbers(q: PublicQuestion, request: ContentRequest) {
    && q.kind in request.questionTypes && 1 <= |q.id| <= 128 && 10 <= |q.prompt| <= 2000
    && WholePoints(q.points) && PointsValue(q.points) >= 1
    && (q.kind == SingleChoice || q.kind == MultipleChoice ==> 2 <= |q.options| <= 8)
    && forall k :: 0 <= k < |q.extra| ==> q.extra[k].name !in {"answer", "answerKey", "correctOption", "solution", "flag"}
  }

  ghost predicate Matched(hidden: Question, questions: seq<PublicQuestion>) {
    exists i :: 0 <= i < |questions| && questions[i].id == hidden.id && questions[i].kind == hidden.kind
                && PointsValue(questions[i].points) == PointsValue(hidden.points)
  }

  /** What the API checks again before it takes a package over. */
  lemma TakenRules(p: TrainingPackage, request: ContentRequest)
    requires Taken(p, request)
    ensures |request.questionTypes| <= |p.questions| <= 20 && |p.grading| == |p.questions|
    ensures forall i :: 0 <= i < |p.questions| ==> PublicInNumbers(p.questions[i], request)
    ensures forall i, j :: 0 <= i < j < |p.questions| ==> p.questions[i].id != p.questions[j].id
    ensures forall i :: 0 <= i < |p.grading| ==> WholePoints(p.grading[i].points) && Matched(p.grading[i], p.questions)
    ensures p.scenario.chain != [] && forall i :: 0 <= i < |p.scenario.chain| ==> Technique(p.scenario.chain[i])
  {
    forall i | 0 <= i < |p.questions| ensures PublicInNumbers(p.questions[i], request) {
      assert PublicTaken(p.questions[i], Requested(request));
    }
    forall i, j | 0 <= i < j < |p.questions| ensures p.questions[i].id != p.questions[j].id {
      assert PublicIds(p.questions)[i] != PublicIds(p.questions)[j];
    }
    forall i | 0 <= i < |p.grading| ensures WholePoints(p.grading[i].points) && Matched(p.grading[i], p.questions) {
      assert HiddenTaken(p.grading[i], p.questions);
    }
  }
}
