/** The main results about generated drafts: exactly when the contract accepts one,
    and that an accepted one can be answered for full marks. */
module DraftContract {
  import opened Wrappers
  import opened Sorting
  import opened Questions
  import opened Grading
  import opened TrustedEvidence
  import opened ContentContract
  import opened ContractChecker
  import opened DraftGenerator
  import opened DraftAcceptance
  import opened GradableContent
  import opened Submission

  /** Every digest is 64 lower-case hexadecimal digits. */
  ghost predicate Digests(sha256: string -> string) {
    forall s :: LowerHex64(sha256(s))
  }

  /** The hash does not confuse these two texts. */
  predicate TellsApart(sha256: string -> string, s: string, t: string) { sha256(s) == sha256(t) ==> s == t }

  // ----- The build specification -----

  lemma SeedOk(digest: string)
    requires LowerHex64(digest)
    ensures Identifier(digest[..32], 128)
  {}

  lemma IndexOk()
    ensures IndexPattern("zerotop-logs-*")
  {}

  lemma PlanOk(sha256: string -> string, prompt: string, p: BlueProfile, events: seq<Event>)
    requires Digests(sha256) && |events| == 6
    ensures TopologyOk(TopologyFor(BLUE, Some(PlanFor(sha256, prompt, p, events))), Some(events), BLUE)
  {
    SeedOk(sha256(prompt));
    IndexOk();
  }

  predicate WordPath(path: string) {
    2 <= |path| <= 500 && path[0] == '/' && forall i :: 1 <= i < |path| ==> 'a' <= path[i] <= 'z'
  }

  lemma StartsWithChars(s: string, prefix: string)
    ensures StartsWith(s, prefix) ==> forall k :: 0 <= k < |prefix| ==> k < |s| && s[k] == prefix[k]
  {
    if StartsWith(s, prefix) { assert forall k :: 0 <= k < |prefix| ==> s[k] == s[..|prefix|][k]; }
  }

  lemma WordPathSafe(path: string)
    requires WordPath(path)
    ensures SafePath(path)
  {
    assert path[..1] == "/";
    StartsWithChars(path, "//");
    assert "//"[1] == '/' && path[1] != '/';
    forall i | 0 <= i < |path| ensures !StartsWith(path[i..], "://") {
      StartsWithChars(path[i..], "://");
      assert "://"[0] == ':' && path[i..][0] != ':';
    }
  }

  lemma HealthProbeOk()
    ensures ProbeOk(HealthProbe(), "http")
  {
    assert WordPath("/health");
    WordPathSafe("/health");
    assert Identifier("target-health", 80);
  }

  lemma VersionProbeOk(probe: Probe)
    requires Identifier(probe.id, 80) && probe.kind == "http" && probe.verb == "GET" && probe.path == "/version"
    requires probe.statuses == [Int(200)] && |probe.markers| == 1 && Text(probe.markers[0], 1, 200)
    ensures ProbeOk(probe, "http")
  {
    assert WordPath("/version");
    WordPathSafe("/version");
  }

  lemma FingerprintProbeOk(cve: string, i: nat)
    requires i < 20 && CveId(cve)
    ensures ProbeOk(Probe("fingerprint-" + Decimal(i + 1), "http", "GET", "/version", [Int(200)], [cve], cve, ""), "http")
  {
    assert Identifier("fingerprint-", 60);
    NumberedOk("fingerprint-", i);
    VersionProbeOk(Probe("fingerprint-" + Decimal(i + 1), "http", "GET", "/version", [Int(200)], [cve], cve, ""));
  }

  lemma ScenarioProbeOk()
    ensures ProbeOk(VulnerabilityProbes([])[0], "http") && VulnerabilityProbes([])[0].findingId != ""
  {
    assert Identifier("scenario-fingerprint", 80);
    VersionProbeOk(VulnerabilityProbes([])[0]);
  }

  lemma VulnerabilityProbeOk(cves: seq<string>, i: nat)
    requires |cves| <= 20 && forall i :: 0 <= i < |cves| ==> CveId(cves[i])
    requires i < |VulnerabilityProbes(cves)|
    ensures var probe := VulnerabilityProbes(cves)[i];
            ProbeOk(probe, "http") && (probe.cveId != "" || probe.findingId != "")
  {
    if cves == [] { ScenarioProbeOk(); } else { FingerprintProbeOk(cves[i], i); }
  }

  lemma TargetFits(catalog: Catalog, cves: seq<string>)
    requires PinnedImage(catalog.baseImage) && RepositoryName(catalog.outputRepository)
    requires |cves| <= 20 && forall i :: 0 <= i < |cves| ==> CveId(cves[i])
    ensures TargetOk(TargetFor(catalog, cves))
  {
    HealthProbeOk();
    var target := TargetFor(catalog, cves);
    forall i | 0 <= i < |target.vulnerable|
      ensures ProbeOk(target.vulnerable[i], "http") && (target.vulnerable[i].cveId != "" || target.vulnerable[i].findingId != "")
    {
      VulnerabilityProbeOk(cves, i);
    }
    assert Identifier("generated-target", 80);
  }

  lemma RefsFit(sha256: string -> string, questions: seq<PublicQuestion>)
    requires Digests(sha256) && forall i :: 0 <= i < |questions| ==> Identifier(questions[i].id, 80)
    ensures RefsOk(RefsFor(sha256, questions), questions)
  {
    var refs := RefsFor(sha256, questions);
    forall i | 0 <= i < |refs| ensures RefOk(refs[i], Members(PublicIds(questions))) {
      assert PublicIds(questions)[i] == refs[i].questionId;
      assert refs[i].refId[..10] == "grading://" && refs[i].rubricDigest[..7] == SHA256;
      assert refs[i].rubricDigest[7..] == sha256(questions[i].id);
    }
    forall id ensures id in (set r | r in refs :: r.questionId) <==> id in Members(PublicIds(questions)) {
      if id in Members(PublicIds(questions)) {
        var i :| 0 <= i < |questions| && PublicIds(questions)[i] == id;
        assert refs[i] in refs && refs[i].questionId == id;
      }
      if r :| r in refs && r.questionId == id {
        var i :| 0 <= i < |refs| && refs[i] == r;
        assert PublicIds(questions)[i] == id;
      }
    }
  }

  lemma UpperTwice(s: string)
    ensures Upper(Upper(s)) == Upper(s)
  {
    assert forall i :: 0 <= i < |s| ==> UpperChar(UpperChar(s[i])) == UpperChar(s[i]);
  }

  lemma {:induction false} CvesUpper(raw: seq<string>)
    ensures forall i :: 0 <= i < |Cves(raw)| ==> Upper(Cves(raw)[i]) == Cves(raw)[i]
  {
    if raw != [] {
      CvesUpper(raw[..|raw| - 1]);
      UpperTwice(raw[|raw| - 1]);
    }
  }

  // ----- Exactly when a draft is accepted -----

  function AskedOf(request: GenerateRequest): ContentRequest {
    ContentRequest(request.team, request.prompt, request.questionTypes)
  }

  /** What a caller can check before asking for a draft. */
  predicate Conforms(request: GenerateRequest, w: Wording) {
    var cves := Cves(request.cveIds);
    && request.team == NormalTeam(request) && request.prompt == Strip(request.prompt)
    && |cves| <= 20 && (forall i :: 0 <= i < |cves| ==> CveId(cves[i]))
    && |OpeningBody(NormalTeam(request), Strip(request.title), Strip(request.prompt), w, cves)| <= 20000
  }

  lemma SelectedKinds(team: string, raw: seq<QuestionType>)
    requires SelectTypes(team, raw).Ok?
    ensures var selected := SelectTypes(team, raw).value;
            && selected != [] && Distinct(selected) && KindSet(selected) == KindSet(raw)
            && (team == BLUE || team == RED)
            && KindSet(selected) <= (if team == BLUE then BLUE_QUESTIONS else RED_QUESTIONS)
            && (team == BLUE ==> KindSet(raw) == BLUE_QUESTIONS)
  {
    DeduplicatedDistinct(raw);
    assert KindSet(Deduplicated(raw)) == KindSet(raw);
    if team == BLUE {
      assert [ElkSearch, MitreAttack][0] == ElkSearch && [ElkSearch, MitreAttack][1] == MitreAttack;
      assert KindSet([ElkSearch, MitreAttack]) == BLUE_QUESTIONS;
    }
  }

  lemma BuildSpecIff(sha256: string -> string, p: TrainingPackage, request: ContentRequest, prompt: string, catalog: Catalog,
                     cves: seq<string>)
    requires Digests(sha256) && TellsApart(sha256, request.prompt, prompt)
    requires p.spec.version == 1 && p.topology == p.spec.topology && TopologyOk(p.spec.topology, p.spec.telemetry, p.spec.team)
    requires p.spec.promptDigest == SHA256 + sha256(prompt) && p.spec.cveIds == cves && p.spec.target == TargetFor(catalog, cves)
    requires PinnedImage(catalog.baseImage) && RepositoryName(catalog.outputRepository)
    requires forall i :: 0 <= i < |cves| ==> Upper(cves[i]) == cves[i]
    requires p.spec.learning == p.learning && p.spec.questions == p.questions
    requires p.spec.summary == p.scenario.summary && p.spec.techniques == p.scenario.chain
    requires RefsOk(p.spec.hiddenRefs, p.questions)
    ensures BuildSpecOk(sha256, p, request)
       <==> request.team == p.spec.team && request.prompt == prompt && |cves| <= 20 && forall i :: 0 <= i < |cves| ==> CveId(cves[i])
  {
    if |cves| <= 20 && forall i :: 0 <= i < |cves| ==> CveId(cves[i]) { TargetFits(catalog, cves); }
    if SHA256 + sha256(request.prompt) == SHA256 + sha256(prompt) {
      assert (SHA256 + sha256(request.prompt))[7..] == sha256(request.prompt);
      assert (SHA256 + sha256(prompt))[7..] == sha256(prompt);
    }
  }

  lemma BlueBuildSpecIff(sha256: string -> string, request: ContentRequest, title: string, prompt: string,
                         types: seq<QuestionType>, cves: seq<string>, profiles: Profiles, w: Wording)
    requires Digests(sha256) && TellsApart(sha256, request.prompt, prompt) && WordingFits(w, BLUE) && types != []
    requires forall i :: 0 <= i < |cves| ==> Upper(cves[i]) == cves[i]
    ensures BuildSpecOk(sha256, PackageFor(sha256, BLUE, title, prompt, types, cves, profiles, w), request)
       <==> request.team == BLUE && request.prompt == prompt && |cves| <= 20 && forall i :: 0 <= i < |cves| ==> CveId(cves[i])
  {
    var p := PackageFor(sha256, BLUE, title, prompt, types, cves, profiles, w);
    PlanOk(sha256, prompt, profiles.blue, SignalEvents(profiles.blue, w));
    forall i | 0 <= i < |p.questions| ensures Identifier(p.questions[i].id, 80) { BlueIdsOk(i); }
    RefsFit(sha256, p.questions);
    BuildSpecIff(sha256, p, request, prompt, w.catalog, cves);
  }

  lemma RedBuildSpecIff(sha256: string -> string, request: ContentRequest, title: string, prompt: string,
                        types: seq<QuestionType>, cves: seq<string>, profiles: Profiles, w: Wording)
    requires Digests(sha256) && TellsApart(sha256, request.prompt, prompt) && WordingFits(w, RED)
    requires types != [] && |types| <= 4
    requires forall i :: 0 <= i < |cves| ==> Upper(cves[i]) == cves[i]
    ensures BuildSpecOk(sha256, PackageFor(sha256, RED, title, prompt, types, cves, profiles, w), request)
       <==> request.team == RED && request.prompt == prompt && |cves| <= 20 && forall i :: 0 <= i < |cves| ==> CveId(cves[i])
  {
    var p := PackageFor(sha256, RED, title, prompt, types, cves, profiles, w);
    forall i | 0 <= i < |p.questions| ensures Identifier(p.questions[i].id, 80) { RedIdsOk(i); }
    RefsFit(sha256, p.questions);
    BuildSpecIff(sha256, p, request, prompt, w.catalog, cves);
  }

  /** Everything but learning and build specification holds of every blue draft. */
  lemma BlueDraftOk(sha256: string -> string, asked: ContentRequest, title: string, prompt: string,
                    types: seq<QuestionType>, cves: seq<string>, profiles: Profiles, w: Wording)
    requires WordingFits(w, BLUE) && types != [] && asked.team == BLUE && Requested(asked) == BLUE_QUESTIONS
    ensures var p := PackageFor(sha256, BLUE, title, prompt, types, cves, profiles, w);
            && QuestionsOk(p.questions, asked) && TelemetryOk(p.spec.telemetry, BLUE) && ChainOk(p.scenario.chain)
            && GradingOk(p.grading, p.questions, TelemetryIds(p.spec.telemetry, BLUE), AttackIds(p.scenario.chain))
  {
    var chain := BlueChain(profiles.blue);
    forall i | 0 <= i < |chain| ensures Technique(chain[i]) { BlueTechniques(profiles.blue, i); }
    TechniquesOk(chain);
    BlueQuestionsOk(w, profiles.blue, asked);
    SignalEventsOk(profiles.blue, w);
    BlueGradingOk(w, profiles.blue);
  }

  lemma RedDraftOk(sha256: string -> string, asked: ContentRequest, title: string, prompt: string,
                   types: seq<QuestionType>, cves: seq<string>, profiles: Profiles, w: Wording)
    requires WordingFits(w, RED) && types != [] && Distinct(types) && KindSet(types) <= RED_QUESTIONS
    requires asked.team == RED && Requested(asked) == KindSet(types)
    ensures var p := PackageFor(sha256, RED, title, prompt, types, cves, profiles, w);
            && QuestionsOk(p.questions, asked) && TelemetryOk(p.spec.telemetry, RED) && ChainOk(p.scenario.chain)
            && GradingOk(p.grading, p.questions, TelemetryIds(p.spec.telemetry, RED), AttackIds(p.scenario.chain))
  {
    var chain := RedChain(profiles.red);
    forall i | 0 <= i < |chain| ensures Technique(chain[i]) { RedTechniques(profiles.red, i); }
    TechniquesOk(chain);
    FewRedKinds(types);
    PaddedKinds(types);
    RedQuestionsOk(w, types, chain, asked);
    RedGradingOk(w, Padded(types), chain);
  }

  lemma BlueAcceptedIff(sha256: string -> string, asked: ContentRequest, title: string, prompt: string,
                        types: seq<QuestionType>, cves: seq<string>, profiles: Profiles, w: Wording)
    requires Digests(sha256) && TellsApart(sha256, asked.prompt, prompt) && WordingFits(w, BLUE)
    requires types != [] && Requested(asked) == BLUE_QUESTIONS
    requires forall i :: 0 <= i < |cves| ==> Upper(cves[i]) == cves[i]
    ensures Accepts(sha256, PackageFor(sha256, BLUE, title, prompt, types, cves, profiles, w), asked)
       <==> asked.team == BLUE && asked.prompt == prompt && |cves| <= 20 && (forall i :: 0 <= i < |cves| ==> CveId(cves[i]))
            && |OpeningBody(BLUE, title, prompt, w, cves)| <= 20000
  {
    BlueBuildSpecIff(sha256, asked, title, prompt, types, cves, profiles, w);
    LearningOkIff(BLUE, title, prompt, w, cves);
    if asked.team == BLUE { BlueDraftOk(sha256, asked, title, prompt, types, cves, profiles, w); }
  }

  lemma RedAcceptedIff(sha256: string -> string, asked: ContentRequest, title: string, prompt: string,
                       types: seq<QuestionType>, cves: seq<string>, profiles: Profiles, w: Wording)
    requires Digests(sha256) && TellsApart(sha256, asked.prompt, prompt) && WordingFits(w, RED)
    requires types != [] && Distinct(types) && KindSet(types) <= RED_QUESTIONS && Requested(asked) == KindSet(types)
    requires forall i :: 0 <= i < |cves| ==> Upper(cves[i]) == cves[i]
    ensures Accepts(sha256, PackageFor(sha256, RED, title, prompt, types, cves, profiles, w), asked)
       <==> asked.team == RED && asked.prompt == prompt && |cves| <= 20 && (forall i :: 0 <= i < |cves| ==> CveId(cves[i]))
            && |OpeningBody(RED, title, prompt, w, cves)| <= 20000
  {
    FewRedKinds(types);
    RedBuildSpecIff(sha256, asked, title, prompt, types, cves, profiles, w);
    LearningOkIff(RED, title, prompt, w, cves);
    if asked.team == RED { RedDraftOk(sha256, asked, title, prompt, types, cves, profiles, w); }
  }

  /** A draft is the package for the request's stripped title and prompt and its selected types. */
  lemma DraftIs(sha256: string -> string, request: GenerateRequest, profiles: Profiles, w: Wording)
    requires WordingShape(w, NormalTeam(request)) && GenerateDraft(sha256, request, profiles, w).Ok?
    ensures var types := SelectTypes(NormalTeam(request), request.questionTypes);
            && types.Ok? && types.value != [] && (NormalTeam(request) == BLUE || NormalTeam(request) == RED)
            && GenerateDraft(sha256, request, profiles, w).value
            == PackageFor(sha256, NormalTeam(request), Strip(request.title), Strip(request.prompt), types.value,
                          Cves(request.cveIds), profiles, w)
  {
    if SelectTypes(NormalTeam(request), request.questionTypes).Ok? { SelectedKinds(NormalTeam(request), request.questionTypes); }
  }

  lemma PackageAcceptedIff(sha256: string -> string, asked: ContentRequest, team: string, title: string, prompt: string,
                           cves: seq<string>, profiles: Profiles, w: Wording)
    requires Digests(sha256) && TellsApart(sha256, asked.prompt, prompt) && WordingFits(w, team)
    requires SelectTypes(team, asked.questionTypes).Ok? && (team == BLUE || team == RED)
    requires SelectTypes(team, asked.questionTypes).value != []
    requires forall i :: 0 <= i < |cves| ==> Upper(cves[i]) == cves[i]
    ensures Accepts(sha256, PackageFor(sha256, team, title, prompt, SelectTypes(team, asked.questionTypes).value, cves, profiles, w), asked)
       <==> asked.team == team && asked.prompt == prompt && |cves| <= 20 && (forall i :: 0 <= i < |cves| ==> CveId(cves[i]))
            && |OpeningBody(team, title, prompt, w, cves)| <= 20000
  {
    SelectedKinds(team, asked.questionTypes);
    var types := SelectTypes(team, asked.questionTypes).value;
    if team == BLUE {
      BlueAcceptedIff(sha256, asked, title, prompt, types, cves, profiles, w);
    } else {
      RedAcceptedIff(sha256, asked, title, prompt, types, cves, profiles, w);
    }
  }

  /** A draft passes the contract for the request it was made from exactly when the
      request names its team in normal form, its prompt has no surrounding space, it
      lists at most twenty well-formed CVE identifiers, and the opening lesson fits.
      Only the hashes of the prompt with and without surrounding space must differ. */
  lemma DraftAcceptedIff(sha256: string -> string, request: GenerateRequest, profiles: Profiles, w: Wording)
    requires Digests(sha256) && WordingFits(w, NormalTeam(request))
    requires TellsApart(sha256, request.prompt, Strip(request.prompt))
    requires GenerateDraft(sha256, request, profiles, w).Ok?
    ensures Accepts(sha256, GenerateDraft(sha256, request, profiles, w).value, AskedOf(request)) <==> Conforms(request, w)
  {
    DraftIs(sha256, request, profiles, w);
    CvesUpper(request.cveIds);
    PackageAcceptedIff(sha256, AskedOf(request), NormalTeam(request), Strip(request.title), Strip(request.prompt),
                       Cves(request.cveIds), profiles, w);
  }

  // ----- The limits of the public endpoint -----

  lemma {:induction false} JoinBounded(items: seq<string>)
    requires forall i :: 0 <= i < |items| ==> |items[i]| <= 16
    ensures |Join(items, ", ")| <= 18 * |items|
  {
    if |items| > 1 { JoinBounded(items[..|items| - 1]); }
  }

  lemma OpeningLength(team: string, title: string, prompt: string, w: Wording, cves: seq<string>)
    ensures |OpeningBody(team, title, prompt, w, cves)|
         == |title| + |prompt| + |w.summary| + |CveNote(w, cves)| + |w.closing| + 9
    ensures |CveNote(w, cves)| <= 2 + |w.cveLead| + |Join(cves, ", ")| + |w.cveTail|
  {}

  /** Within the limits of the generation endpoint the opening lesson always fits, so
      the acceptance condition comes down to the form of the request's fields. */
  lemma OpeningFits(request: GenerateRequest, w: Wording)
    requires WordingFits(w, NormalTeam(request))
    requires |request.title| <= 120 && |request.prompt| <= 5000
    requires |Cves(request.cveIds)| <= 20 && forall i :: 0 <= i < |Cves(request.cveIds)| ==> CveId(Cves(request.cveIds)[i])
    ensures |OpeningBody(NormalTeam(request), Strip(request.title), Strip(request.prompt), w, Cves(request.cveIds))| <= 20000
  {
    BoundedOpening(NormalTeam(request), Strip(request.title), Strip(request.prompt), w, Cves(request.cveIds));
  }

  lemma BoundedOpening(team: string, title: string, prompt: string, w: Wording, cves: seq<string>)
    requires |title| <= 120 && |prompt| <= 5000 && |cves| <= 20
    requires forall i :: 0 <= i < |cves| ==> |cves[i]| <= 16
    requires |w.summary| + |w.closing| + |w.cveLead| + |w.cveTail| <= 2000
    ensures |OpeningBody(team, title, prompt, w, cves)| <= 20000
  {
    JoinBounded(cves);
    OpeningLength(team, title, prompt, w, cves);
  }

  // ----- Answering a draft -----

  lemma TextsHaveText(items: seq<string>)
    requires items != []
    ensures HasText(Texts(items))
  {
    assert Texts(items)[0].Str?;
  }

  lemma BlueKeysHaveText(w: Wording, p: BlueProfile)
    requires |w.prompts| == 6 && |w.eventSizes| == 6
    ensures ChoiceKeysHaveText(BluePairs(w, p).hidden) && ElkKeysHaveText(BluePairs(w, p).hidden)
  {
    var hidden := BluePairs(w, p).hidden;
    var ids := EventIds(SignalEvents(p, w));
    forall i | 0 <= i < |hidden| && hidden[i].kind == ElkSearch ensures HasText(hidden[i].key.expectedEvidenceIds) {
      TextsHaveText(ids[..2]);
      TextsHaveText(ids[1..3]);
      TextsHaveText(ids[3..6]);
    }
  }

  lemma RedKeysHaveText(w: Wording, kinds: seq<QuestionType>, chain: seq<string>)
    requires |w.labels| == 8 && |w.prompts| == 4 && |chain| >= 1 && KindSet(kinds) <= RED_QUESTIONS
    ensures ChoiceKeysHaveText(RedPairs(w, kinds, chain).hidden) && ElkKeysHaveText(RedPairs(w, kinds, chain).hidden)
  {
    TextsHaveText(["safe-enumeration"]);
    TextsHaveText(["process-event", "auth-event", "network-event"]);
    assert forall i :: 0 <= i < |kinds| ==> kinds[i] in KindSet(kinds);
  }

  /** A generated question is fit for the API: its points are integers and it carries
      nothing but what the API reads. */
  predicate PlainQuestion(q: PublicQuestion) { q.points.Int? && q.extra == [] }

  lemma DraftQuestionsPlain(sha256: string -> string, team: string, title: string, prompt: string, types: seq<QuestionType>,
                            cves: seq<string>, profiles: Profiles, w: Wording)
    requires (team == BLUE || team == RED) && WordingShape(w, team) && types != []
    ensures var p := PackageFor(sha256, team, title, prompt, types, cves, profiles, w);
            && |p.grading| == |p.questions| >= 4
            && (forall i :: 0 <= i < |p.questions| ==> PlainQuestion(p.questions[i]))
            && (forall i :: 0 <= i < |p.grading| ==> p.grading[i].points.Int?)
            && (forall i :: 0 <= i < |p.scenario.chain| ==> Technique(p.scenario.chain[i]))
  {
    if team == BLUE {
      forall i | 0 <= i < |BlueChain(profiles.blue)| ensures Technique(BlueChain(profiles.blue)[i]) { BlueTechniques(profiles.blue, i); }
    } else {
      forall i | 0 <= i < |RedChain(profiles.red)| ensures Technique(RedChain(profiles.red)[i]) { RedTechniques(profiles.red, i); }
    }
  }

  lemma PlainPublicTaken(q: PublicQuestion, requested: set<QuestionType>)
    requires PublicOk(q, requested) && PlainQuestion(q)
    ensures PublicTaken(q, requested)
  {}

  lemma PlainHiddenTaken(sha256: string -> string, p: TrainingPackage, asked: ContentRequest, i: nat)
    requires Accepts(sha256, p, asked) && i < |p.grading| && p.grading[i].points.Int?
    ensures HiddenTaken(p.grading[i], p.questions)
  {
    var j := AcceptedPair(sha256, p, asked, i);
    assert p.questions[j].id == p.grading[i].id && p.questions[j].kind == p.grading[i].kind;
  }

  /** The API takes over every accepted package whose questions are plain. */
  lemma AcceptedPlainTaken(sha256: string -> string, p: TrainingPackage, asked: ContentRequest)
    requires Accepts(sha256, p, asked) && |asked.questionTypes| <= |p.questions|
    requires forall i :: 0 <= i < |p.questions| ==> PlainQuestion(p.questions[i])
    requires forall i :: 0 <= i < |p.grading| ==> p.grading[i].points.Int?
    requires forall i :: 0 <= i < |p.scenario.chain| ==> Technique(p.scenario.chain[i])
    ensures Taken(p, asked)
  {
    AcceptedGrading(sha256, p, asked);
    AcceptedPairing(sha256, p, asked);
    DistinctIffAsMany(Ids(p.grading));
    forall i | 0 <= i < |p.questions| ensures PublicTaken(p.questions[i], Requested(asked)) {
      PlainPublicTaken(p.questions[i], Requested(asked));
    }
    forall i | 0 <= i < |p.grading| ensures HiddenTaken(p.grading[i], p.questions) {
      PlainHiddenTaken(sha256, p, asked, i);
    }
  }

  /** A draft for a conforming request is accepted, taken over, and can be answered in
      full before the development grader. */
  lemma DraftReady(sha256: string -> string, request: GenerateRequest, profiles: Profiles, w: Wording)
    requires Digests(sha256) && WordingFits(w, NormalTeam(request)) && Conforms(request, w)
    requires GenerateDraft(sha256, request, profiles, w).Ok? && Distinct(request.questionTypes)
    ensures var p := GenerateDraft(sha256, request, profiles, w).value;
            && Accepts(sha256, p, AskedOf(request)) && Taken(p, AskedOf(request))
            && ReadyToGrade(p.grading, TelemetryIds(p.spec.telemetry, request.team))
  {
    DraftAcceptedIff(sha256, request, profiles, w);
    DraftTaken(sha256, request, profiles, w);
    DraftKeysHaveText(sha256, request, profiles, w);
    TakenReadyIff(sha256, GenerateDraft(sha256, request, profiles, w).value, AskedOf(request));
  }

  /** `p` is the draft for a conforming request without repeated types. */
  ghost predicate ConformingDraft(sha256: string -> string, request: GenerateRequest, profiles: Profiles, w: Wording, p: TrainingPackage) {
    && Digests(sha256) && WordingFits(w, NormalTeam(request)) && Conforms(request, w) && Distinct(request.questionTypes)
    && GenerateDraft(sha256, request, profiles, w) == Ok(p)
  }

  lemma ConformingDraftReady(sha256: string -> string, request: GenerateRequest, profiles: Profiles, w: Wording, p: TrainingPackage)
    requires ConformingDraft(sha256, request, profiles, w, p)
    ensures ReadyToGrade(p.grading, TelemetryIds(p.spec.telemetry, request.team))
  {
    DraftReady(sha256, request, profiles, w);
  }

  /** From request to full marks: a draft for a conforming request passes the
      contract, is taken over by the API, and answering from its keys is graded 100
      by the development grader. */
  lemma DraftEndToEnd(sha256: string -> string, request: GenerateRequest, profiles: Profiles, w: Wording,
                      runId: string, query: string, essay: string, passScore: real)
    requires Digests(sha256) && WordingFits(w, NormalTeam(request)) && Conforms(request, w)
    requires GenerateDraft(sha256, request, profiles, w).Ok? && Distinct(request.questionTypes)
    requires Trim(query) != "" && |Trim(essay)| >= 80 && 0.0 <= passScore <= 100.0
    ensures var p := GenerateDraft(sha256, request, profiles, w).value;
            var answers := FullAnswers(p.grading, query, essay);
            var telemetry := TelemetryIds(p.spec.telemetry, request.team);
            var run := GradeRun(p.grading, answers, MergedFor(p.grading, answers, [], telemetry, runId), passScore);
            && Accepts(sha256, p, AskedOf(request)) && Taken(p, AskedOf(request))
            && run.Ok? && run.value.score == 100 && run.value.passed
  {
    var p := GenerateDraft(sha256, request, profiles, w).value;
    DraftReady(sha256, request, profiles, w);
    FullSubmissionScores100(p.grading, [], TelemetryIds(p.spec.telemetry, request.team), runId, query, essay, passScore);
  }

  /** The API refuses repeated types, so four is the most a request can ask for. */
  lemma FewTypes(team: string, raw: seq<QuestionType>)
    requires SelectTypes(team, raw).Ok? && Distinct(raw)
    ensures |raw| <= 4
  {
    SelectedKinds(team, raw);
    if team == BLUE { DistinctKindCount(raw); } else { FewRedKinds(raw); }
  }

  ghost predicate PlainDraft(p: TrainingPackage) {
    && |p.questions| >= 4
    && (forall i :: 0 <= i < |p.questions| ==> PlainQuestion(p.questions[i]))
    && (forall i :: 0 <= i < |p.grading| ==> p.grading[i].points.Int?)
    && (forall i :: 0 <= i < |p.scenario.chain| ==> Technique(p.scenario.chain[i]))
  }

  lemma DraftIsPlain(sha256: string -> string, request: GenerateRequest, profiles: Profiles, w: Wording)
    requires WordingShape(w, NormalTeam(request)) && GenerateDraft(sha256, request, profiles, w).Ok?
    ensures PlainDraft(GenerateDraft(sha256, request, profiles, w).value)
  {
    var team := NormalTeam(request);
    SelectedKinds(team, request.questionTypes);
    DraftQuestionsPlain(sha256, team, Strip(request.title), Strip(request.prompt),
                        SelectTypes(team, request.questionTypes).value, Cves(request.cveIds), profiles, w);
  }

  lemma PlainDraftTaken(sha256: string -> string, p: TrainingPackage, asked: ContentRequest)
    requires Accepts(sha256, p, asked) && PlainDraft(p) && |asked.questionTypes| <= 4
    ensures Taken(p, asked)
  {
    AcceptedPlainTaken(sha256, p, asked);
  }

  lemma MadeForTeam(sha256: string -> string, request: GenerateRequest, profiles: Profiles, w: Wording)
    requires WordingShape(w, NormalTeam(request)) && GenerateDraft(sha256, request, profiles, w).Ok?
    ensures SelectTypes(NormalTeam(request), request.questionTypes).Ok?
  {}

  lemma DraftTaken(sha256: string -> string, request: GenerateRequest, profiles: Profiles, w: Wording)
    requires WordingShape(w, NormalTeam(request)) && GenerateDraft(sha256, request, profiles, w).Ok?
    requires Accepts(sha256, GenerateDraft(sha256, request, profiles, w).value, AskedOf(request))
    requires Distinct(request.questionTypes)
    ensures Taken(GenerateDraft(sha256, request, profiles, w).value, AskedOf(request))
  {
    MadeForTeam(sha256, request, profiles, w);
    FewTypes(NormalTeam(request), request.questionTypes);
    DraftIsPlain(sha256, request, profiles, w);
    PlainDraftTaken(sha256, GenerateDraft(sha256, request, profiles, w).value, AskedOf(request));
  }

  lemma DraftKeysHaveText(sha256: string -> string, request: GenerateRequest, profiles: Profiles, w: Wording)
    requires WordingFits(w, NormalTeam(request)) && GenerateDraft(sha256, request, profiles, w).Ok?
    ensures var p := GenerateDraft(sha256, request, profiles, w).value;
            ChoiceKeysHaveText(p.grading) && ElkKeysHaveText(p.grading)
  {
    var team := NormalTeam(request);
    SelectedKinds(team, request.questionTypes);
    var types := SelectTypes(team, request.questionTypes).value;
    if team == BLUE {
      BlueKeysHaveText(w, profiles.blue);
    } else {
      PaddedKinds(types);
      RedKeysHaveText(w, Padded(types), RedChain(profiles.red));
    }
  }
}
