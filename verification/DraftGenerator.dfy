/** The deterministic generator of training packages. Keyword matching picks the
    profile and fixed Korean texts fill the package; both are parameters here. */
module DraftGenerator {
  import opened Wrappers
  import opened Sorting
  import opened Questions
  import opened ContentContract

  datatype GenerateRequest = GenerateRequest(
    title: string, prompt: string, team: string, questionTypes: seq<QuestionType>, cveIds: seq<string>)

  datatype DomainError = TitleTooShort | PromptTooShort | QuestionTypesRefused | TeamRefused

  datatype BlueProfile = Ransomware | CredentialAbuse | Webshell | PowershellExfiltration | GenericIntrusion
  datatype RedProfile = ContainerEscape | CredentialAccess | FileExposure | WebApplication | GenericValidation
  datatype Profiles = Profiles(blue: BlueProfile, red: RedProfile)

  /** Where the deployment builds from and pushes to. */
  datatype Catalog = Catalog(baseImage: string, outputRepository: string)

  /** The fixed texts of one team and profile, and the deployment's catalog entries. */
  datatype Wording = Wording(
    catalog: Catalog,
    summary: string, openingTitle: string, closing: string, cveLead: string, cveTail: string,
    titles: seq<string>, bodies: seq<string>, prompts: seq<string>, labels: seq<string>, eventSizes: seq<nat>)

  // ----- Profiles -----

  function BlueChain(p: BlueProfile): (chain: seq<string>)
    ensures 4 <= |chain| <= 5
  {
    match p
    case Ransomware => ["T1078", "T1059.001", "T1490", "T1486"]
    case CredentialAbuse => ["T1110", "T1078", "T1098", "T1021.001"]
    case Webshell => ["T1190", "T1505.003", "T1059.004", "T1105"]
    case PowershellExfiltration => ["T1190", "T1059.001", "T1005", "T1560.001", "T1041"]
    case GenericIntrusion => ["T1190", "T1059.004", "T1083", "T1071.001"]
  }

  function RedChain(p: RedProfile): (chain: seq<string>)
    ensures |chain| == 4
  {
    match p
    case ContainerEscape => ["T1610", "T1611", "T1059.004", "T1082"]
    case CredentialAccess => ["T1046", "T1110", "T1078", "T1021.004"]
    case FileExposure => ["T1190", "T1083", "T1005", "T1074.001"]
    case WebApplication => ["T1595.002", "T1190", "T1059.004", "T1083"]
    case GenericValidation => ["T1595.002", "T1046", "T1190", "T1059.004"]
  }

  function BlueProfileName(p: BlueProfile): string {
    match p
    case Ransomware => "ransomware"
    case CredentialAbuse => "credential_abuse"
    case Webshell => "webshell"
    case PowershellExfiltration => "powershell_rce_exfiltration"
    case GenericIntrusion => "generic_intrusion"
  }

  // ----- Question types -----

  function SelectTypes(team: string, raw: seq<QuestionType>): Result<seq<QuestionType>, DomainError> {
    var selected := Deduplicated(raw);
    if team == BLUE then
      if KindSet(selected) != BLUE_QUESTIONS then Err(QuestionTypesRefused) else Ok([ElkSearch, MitreAttack])
    else if team == RED then
      if selected == [] || !(KindSet(selected) <= RED_QUESTIONS) then Err(QuestionTypesRefused) else Ok(selected)
    else Err(TeamRefused)
  }

  // ----- Telemetry signals -----

  datatype Signal = Signal(id: string, fields: seq<Entry>)

  function Named(name: string, inner: seq<string>): Entry {
    Entry(name, DictTree(seq(|inner|, i requires 0 <= i < |inner| => Entry(inner[i], Leaf))))
  }

  function Signals(p: BlueProfile): (signals: seq<Signal>)
    ensures |signals| == 6
  {
    if p == PowershellExfiltration then
      [ Signal("signal-web-rce-probe", [Named("host", ["name"]), Named("source", ["ip"]), Named("url", ["path"])]),
        Signal("signal-webshell-powershell",
               [Named("host", ["name"]), Named("user", ["name"]),
                Entry("process", DictTree([Entry("name", Leaf), Named("parent", ["name"]), Entry("entity_id", Leaf)]))]),
        Signal("signal-powershell-recon",
               [Named("host", ["name"]), Named("user", ["name"]), Named("process", ["name", "entity_id"])]),
        Signal("signal-sensitive-file-read", [Named("host", ["name"]), Named("user", ["name"]), Named("file", ["path"])]),
        Signal("signal-archive-created", [Named("host", ["name"]), Named("user", ["name"]), Named("file", ["path"])]),
        Signal("signal-outbound-exfiltration",
               [Named("host", ["name"]), Named("user", ["name"]), Named("source", ["ip", "bytes"]),
                Named("destination", ["ip", "port"]), Named("network", ["direction", "transport"])]) ]
    else
      [ Signal("signal-initial-anomaly", []), Signal("signal-execution-start", []), Signal("signal-followup-activity", []),
        Signal("signal-impact-stage-one", []), Signal("signal-impact-stage-two", []), Signal("signal-impact-stage-three", []) ]
  }

  function SignalDocument(s: Signal): Tree {
    DictTree([Entry("@timestamp", Leaf), Entry("message", Leaf), Named("event", ["id", "kind", "category", "dataset"])]
             + s.fields
             + [Entry("threat", DictTree([Entry("framework", Leaf), Entry("technique", DictTree([Entry("id", ListTree([Leaf]))]))]))])
  }

  function SignalEvents(p: BlueProfile, w: Wording): (events: seq<Event>)
    requires |w.eventSizes| == 6
    ensures |events| == 6
  {
    seq(6, i requires 0 <= i < 6 => Event(Signals(p)[i].id, w.eventSizes[i], SignalDocument(Signals(p)[i])))
  }

  // ----- Questions -----

  function Texts(items: seq<string>): (values: seq<Value>)
    ensures |values| == |items|
  {
    seq(|items|, i requires 0 <= i < |items| => Str(items[i]))
  }

  function ChoiceAnswer(ids: seq<string>): AnswerKey { AnswerKey(Some(Texts(ids)), None, [], [], "") }

  function TechniqueAnswer(ids: seq<string>): AnswerKey { AnswerKey(None, None, Texts(ids), [], "") }

  function EvidenceAnswer(ids: seq<string>): AnswerKey { AnswerKey(None, None, [], Texts(ids), "") }

  function RubricAnswer(id: string): AnswerKey { AnswerKey(None, None, [], [], id) }

  const BLUE_IDS := ["blue-elk-entry", "blue-elk-execution", "blue-elk-impact", "blue-mitre-entry", "blue-mitre-execution", "blue-mitre-chain"]

  const BLUE_POINTS := [20, 20, 20, 15, 15, 10]

  function BluePublic(w: Wording, i: nat): PublicQuestion
    requires i < 6 && |w.prompts| == 6
  {
    PublicQuestion(BLUE_IDS[i], if i < 3 then ElkSearch else MitreAttack, w.prompts[i], Int(BLUE_POINTS[i]), [], [])
  }

  function BlueKey(events: seq<Event>, chain: seq<string>, i: nat): AnswerKey
    requires i < 6 && |events| == 6 && |chain| >= 1
  {
    var ids := EventIds(events);
    if i == 0 then EvidenceAnswer(ids[..2])
    else if i == 1 then EvidenceAnswer(ids[1..3])
    else if i == 2 then EvidenceAnswer(ids[3..6])
    else if i == 3 then TechniqueAnswer([chain[0]])
    else if i == 4 then TechniqueAnswer([if |chain| > 1 then chain[1] else chain[0]])
    else TechniqueAnswer(chain[..if |chain| < 3 then |chain| else 3])
  }

  function Turn(i: nat, n: nat): (k: nat)
    requires n > 0
    ensures k < n
    ensures i < n ==> k == i
  {
    i % n
  }

  /** Selected types in turn until there are four questions. */
  function Padded(types: seq<QuestionType>): (padded: seq<QuestionType>)
    requires types != []
    ensures |padded| == if |types| < 4 then 4 else |types|
    ensures forall i :: 0 <= i < |types| ==> padded[i] == types[i]
  {
    var n := if |types| < 4 then 4 else |types|;
    seq(n, i requires 0 <= i < n => types[Turn(i, |types|)])
  }

  method PadTypes(types: seq<QuestionType>) returns (padded: seq<QuestionType>)
    requires types != []
    ensures padded == Padded(types)
  {
    padded := types;
    while |padded| < 4
      invariant |types| <= |padded|
      invariant |types| >= 4 ==> padded == types
      invariant |types| < 4 ==> |padded| <= 4
      invariant forall i :: 0 <= i < |padded| ==> padded[i] == types[Turn(i, |types|)]
    {
      padded := padded + [types[Turn(|padded|, |types|)]];
    }
  }

  function Decimal(n: nat): string {
    if n < 10 then [('0' as int + n) as char] else Decimal(n / 10) + [('0' as int + n % 10) as char]
  }

  const SAFE_OPTIONS := ["safe-enumeration", "disable-audit", "external-scan", "destructive-test"]
  const EVIDENCE_OPTIONS := ["process-event", "auth-event", "network-event", "marketing-cookie"]

  function RedOptions(kind: QuestionType, w: Wording): seq<ChoiceOption>
    requires |w.labels| == 8
  {
    if kind == SingleChoice then seq(4, i requires 0 <= i < 4 => ChoiceOption(SAFE_OPTIONS[i], w.labels[i]))
    else if kind == MultipleChoice then seq(4, i requires 0 <= i < 4 => ChoiceOption(EVIDENCE_OPTIONS[i], w.labels[4 + i]))
    else []
  }

  function RedPrompt(kind: QuestionType, w: Wording): string
    requires |w.prompts| == 4
  {
    match kind
    case SingleChoice => w.prompts[0]
    case MultipleChoice => w.prompts[1]
    case FreeText => w.prompts[2]
    case _ => w.prompts[3]
  }

  function RedId(i: nat): string { "red-q" + Decimal(i + 1) }

  function RedPublic(w: Wording, kind: QuestionType, i: nat): PublicQuestion
    requires |w.labels| == 8 && |w.prompts| == 4
  {
    PublicQuestion(RedId(i), kind, RedPrompt(kind, w), Int(if kind == MitreAttack then 20 else 30), RedOptions(kind, w), [])
  }

  function RedKey(kind: QuestionType, chain: seq<string>, i: nat): AnswerKey
    requires |chain| >= 1
  {
    match kind
    case SingleChoice => ChoiceAnswer(["safe-enumeration"])
    case MultipleChoice => ChoiceAnswer(["process-event", "auth-event", "network-event"])
    case MitreAttack => TechniqueAnswer([chain[0]])
    case _ => RubricAnswer(RedId(i) + "-analysis-v2")
  }

  function HiddenOf(q: PublicQuestion, key: AnswerKey): Question { Question(q.id, q.kind, q.points, key) }

  datatype QuestionPairs = QuestionPairs(public: seq<PublicQuestion>, hidden: seq<Question>)

  function BluePairs(w: Wording, p: BlueProfile): QuestionPairs
    requires |w.prompts| == 6 && |w.eventSizes| == 6
  {
    var events := SignalEvents(p, w);
    QuestionPairs(seq(6, i requires 0 <= i < 6 => BluePublic(w, i)),
                  seq(6, i requires 0 <= i < 6 => HiddenOf(BluePublic(w, i), BlueKey(events, BlueChain(p), i))))
  }

  function RedPairs(w: Wording, kinds: seq<QuestionType>, chain: seq<string>): (pairs: QuestionPairs)
    requires |w.labels| == 8 && |w.prompts| == 4 && |chain| >= 1
    ensures |pairs.public| == |pairs.hidden| == |kinds|
  {
    QuestionPairs(seq(|kinds|, i requires 0 <= i < |kinds| => RedPublic(w, kinds[i], i)),
                  seq(|kinds|, i requires 0 <= i < |kinds| => HiddenOf(RedPublic(w, kinds[i], i), RedKey(kinds[i], chain, i))))
  }

  lemma RedPairsStep(w: Wording, kinds: seq<QuestionType>, chain: seq<string>, i: nat)
    requires |w.labels| == 8 && |w.prompts| == 4 && |chain| >= 1 && i < |kinds|
    ensures RedPairs(w, kinds[..i + 1], chain).public == RedPairs(w, kinds[..i], chain).public + [RedPublic(w, kinds[i], i)]
    ensures RedPairs(w, kinds[..i + 1], chain).hidden
         == RedPairs(w, kinds[..i], chain).hidden + [HiddenOf(RedPublic(w, kinds[i], i), RedKey(kinds[i], chain, i))]
  {}

  /** Pad the types, then append each public question with its hidden contract. */
  method GenerateRedQuestions(w: Wording, types: seq<QuestionType>, chain: seq<string>) returns (pairs: QuestionPairs)
    requires |w.labels| == 8 && |w.prompts| == 4 && |chain| >= 1 && types != []
    ensures pairs == RedPairs(w, Padded(types), chain)
  {
    var kinds := PadTypes(types);
    var public: seq<PublicQuestion>, hidden: seq<Question> := [], [];
    for i := 0 to |kinds|
      invariant QuestionPairs(public, hidden) == RedPairs(w, kinds[..i], chain)
    {
      RedPairsStep(w, kinds, chain, i);
      var q := RedPublic(w, kinds[i], i);
      public := public + [q];
      hidden := hidden + [HiddenOf(q, RedKey(kinds[i], chain, i))];
    }
    assert kinds[..|kinds|] == kinds;
    pairs := QuestionPairs(public, hidden);
  }

  // ----- The draft -----

  function Cves(raw: seq<string>): (cves: seq<string>)
    ensures |cves| <= |raw|
  {
    if raw == [] then []
    else
      var last := |raw| - 1;
      if StartsWith(Upper(raw[last]), "CVE-") then Cves(raw[..last]) + [Upper(raw[last])] else Cves(raw[..last])
  }

  function Join(items: seq<string>, separator: string): string {
    if items == [] then ""
    else if |items| == 1 then items[0]
    else Join(items[..|items| - 1], separator) + separator + items[|items| - 1]
  }

  function CveNote(w: Wording, cves: seq<string>): string {
    if cves == [] then "" else "\n\n" + w.cveLead + Join(cves, ", ") + w.cveTail
  }

  function OpeningBody(team: string, title: string, prompt: string, w: Wording, cves: seq<string>): string {
    if team == BLUE then "## " + title + "\n\n" + prompt + "\n\n" + w.summary + CveNote(w, cves) + "\n\n" + w.closing
    else "## " + title + "\n\n" + prompt + CveNote(w, cves) + "\n\n" + w.summary + "\n\n" + w.closing
  }

  const BLUE_SECTIONS := ["evidence-model", "investigation-workflow", "elk-kql-guidance", "mitre-context", "response-remediation"]
  const RED_SECTIONS := ["attack-workflow", "defender-visibility", "mitre-context", "remediation"]

  function SectionNames(team: string): seq<string> { if team == BLUE then BLUE_SECTIONS else RED_SECTIONS }

  function LearningFor(team: string, title: string, prompt: string, w: Wording, cves: seq<string>): Learning
    requires |w.titles| == |w.bodies| == |SectionNames(team)|
  {
    var names := SectionNames(team);
    Learning(title, w.summary,
             [Section("threat-context", w.openingTitle, OpeningBody(team, title, prompt, w, cves))]
             + seq(|names|, i requires 0 <= i < |names| => Section(names[i], w.titles[i], w.bodies[i])))
  }

  function HealthProbe(): Probe { Probe("target-health", "http", "GET", "/health", [Int(200)], ["ready"], "", "") }

  function VulnerabilityProbes(cves: seq<string>): seq<Probe> {
    if cves == [] then
      [Probe("scenario-fingerprint", "http", "GET", "/version", [Int(200)], ["codegate-vulnerable-target"], "", "scenario-fingerprint")]
    else
      seq(|cves|, i requires 0 <= i < |cves| =>
        Probe("fingerprint-" + Decimal(i + 1), "http", "GET", "/version", [Int(200)], [cves[i]], cves[i], ""))
  }

  function TopologyFor(team: string, plan: Option<TelemetryPlan>): Topology {
    if team == BLUE then Topology(1, team, "per_run", "soc_analyst", "ubuntu", "kibana", "monitored_target", "target", plan, {})
    else Topology(1, team, "per_run", "attack_operator", "kali", "target", "vulnerable_target", "target", None, {})
  }

  function PlanFor(sha256: string -> string, prompt: string, p: BlueProfile, events: seq<Event>): TelemetryPlan {
    var digest := sha256(prompt);
    TelemetryPlan("elastic", "elastic_agent", "scenario_log_generator", "zerotop-logs-*", events,
                  Generation(1, BlueProfileName(p), Int(1200), Int(60), digest[..if |digest| < 32 then |digest| else 32], true, {}), {})
  }

  function RefsFor(sha256: string -> string, questions: seq<PublicQuestion>): (refs: seq<HiddenRef>)
    ensures |refs| == |questions|
  {
    seq(|questions|, i requires 0 <= i < |questions| =>
      HiddenRef(questions[i].id, "grading://" + questions[i].id, SHA256 + sha256(questions[i].id), {}))
  }

  function TargetFor(catalog: Catalog, cves: seq<string>): Target {
    Target("generated-target", catalog.baseImage, catalog.outputRepository, Int(8080), "http", [], [], [HealthProbe()], VulnerabilityProbes(cves))
  }

  predicate WordingShape(w: Wording, team: string) {
    && |w.titles| == |w.bodies| == |SectionNames(team)|
    && |w.prompts| == (if team == BLUE then 6 else 4)
    && |w.labels| == 8 && |w.eventSizes| == 6
  }

  function PackageFor(sha256: string -> string, team: string, title: string, prompt: string, types: seq<QuestionType>,
                      cves: seq<string>, profiles: Profiles, w: Wording): TrainingPackage
    requires (team == BLUE || team == RED) && WordingShape(w, team) && types != []
  {
    var learning := LearningFor(team, title, prompt, w, cves);
    var chain := if team == BLUE then BlueChain(profiles.blue) else RedChain(profiles.red);
    var events := SignalEvents(profiles.blue, w);
    var pairs := if team == BLUE then BluePairs(w, profiles.blue) else RedPairs(w, Padded(types), chain);
    var topology := TopologyFor(team, Some(PlanFor(sha256, prompt, profiles.blue, events)));
    TrainingPackage(
      learning, pairs.public, pairs.hidden, Scenario(w.summary, chain), topology,
      BuildSpec(1, team, SHA256 + sha256(prompt), cves, topology, TargetFor(w.catalog, cves),
                if team == BLUE then Some(events) else None, learning, pairs.public,
                w.summary, chain, RefsFor(sha256, pairs.public)))
  }

  function NormalTeam(request: GenerateRequest): string { Lower(Strip(request.team)) }

  /** `generate_lab_draft` for the profiles and texts that the keywords select. */
  function GenerateDraft(sha256: string -> string, request: GenerateRequest, profiles: Profiles, w: Wording)
    : Result<TrainingPackage, DomainError>
    requires WordingShape(w, NormalTeam(request))
  {
    var title, prompt, team := Strip(request.title), Strip(request.prompt), NormalTeam(request);
    if |title| < 3 then Err(TitleTooShort)
    else if |prompt| < 10 then Err(PromptTooShort)
    else
      var types := SelectTypes(team, request.questionTypes);
      match types
      case Err(e) => Err(e)
      case Ok(selected) => Ok(PackageFor(sha256, team, title, prompt, selected, Cves(request.cveIds), profiles, w))
  }
}
