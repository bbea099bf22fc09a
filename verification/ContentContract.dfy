/** The content service's acceptance rules for a generated training package. */
module ContentContract {
  import opened Wrappers
  import opened Sorting
  import opened Questions

  // ----- The package -----

  /** Nested JSON as the scan for answer material sees it. */
  datatype Tree = Leaf | ListTree(items: seq<Tree>) | DictTree(members: seq<Entry>)
  datatype Entry = Entry(name: string, value: Tree)

  datatype Section = Section(id: string, title: string, body: string)
  datatype Learning = Learning(title: string, summary: string, sections: seq<Section>)

  datatype ChoiceOption = ChoiceOption(id: string, text: string)

  /** `extra` holds whatever else a provider put into the question. */
  datatype PublicQuestion = PublicQuestion(
    id: string, kind: QuestionType, prompt: string, points: Amount, options: seq<ChoiceOption>, extra: seq<Entry>)

  datatype Event = Event(id: string, size: nat, document: Tree)

  datatype Scenario = Scenario(summary: string, chain: seq<string>)

  datatype Generation = Generation(
    version: int, profile: string, totalEvents: Amount, timeRange: Amount, seed: string, anchorIsDate: bool,
    unsupported: set<string>)
  datatype TelemetryPlan = TelemetryPlan(
    stack: string, collector: string, generator: string, index: string, events: seq<Event>, generation: Generation,
    unsupported: set<string>)
  /** `unsupported` names the keys of the topology and of its roles beyond the modelled ones. */
  datatype Topology = Topology(
    version: int, team: string, isolation: string, role: string, desktopImage: string, entrypoint: string,
    targetRole: string, hostname: string, telemetry: Option<TelemetryPlan>, unsupported: set<string>)

  datatype Probe = Probe(
    id: string, kind: string, verb: string, path: string, statuses: seq<Amount>, markers: seq<string>,
    cveId: string, findingId: string)
  datatype Package = Package(name: string, version: string)
  datatype Artifact = Artifact(url: string, sha256: string, destination: string)
  datatype Target = Target(
    name: string, baseImage: string, outputRepository: string, port: Amount, protocol: string, packages: seq<Package>, artifacts: seq<Artifact>,
    functional: seq<Probe>, vulnerable: seq<Probe>)

  datatype HiddenRef = HiddenRef(questionId: string, refId: string, rubricDigest: string, unsupported: set<string>)

  datatype BuildSpec = BuildSpec(
    version: int, team: string, promptDigest: string, cveIds: seq<string>, topology: Topology, target: Target,
    telemetry: Option<seq<Event>>, learning: Learning, questions: seq<PublicQuestion>,
    summary: string, techniques: seq<string>, hiddenRefs: seq<HiddenRef>)

  datatype TrainingPackage = TrainingPackage(
    learning: Learning, questions: seq<PublicQuestion>, grading: seq<Question>, scenario: Scenario,
    topology: Topology, spec: BuildSpec)

  datatype ContentRequest = ContentRequest(team: string, prompt: string, questionTypes: seq<QuestionType>)

  const BLUE := "blue"
  const RED := "red"
  const BLUE_QUESTIONS := {ElkSearch, MitreAttack}
  const RED_QUESTIONS := {SingleChoice, MultipleChoice, FreeText, MitreAttack}

  function Members(ids: seq<string>): set<string> { set id | id in ids }

  // ----- Text rules -----

  predicate Text(s: string, minimum: nat, maximum: nat) { minimum <= |s| <= maximum }

  predicate Hangul(s: string) { exists i :: 0 <= i < |s| && 0xAC00 <= s[i] as int <= 0xD7A3 }

  predicate IntegerWithin(a: Amount, low: int, high: int) { a.Int? && low <= a.n <= high }

  predicate StartsWith(s: string, prefix: string) { |prefix| <= |s| && s[..|prefix|] == prefix }

  predicate Hex64(s: string) {
    |s| == 64 && forall i :: 0 <= i < 64 ==> AsciiDigit(s[i]) || 'a' <= LowerChar(s[i]) <= 'f'
  }

  predicate LowerHex64(s: string) { |s| == 64 && forall i :: 0 <= i < 64 ==> AsciiDigit(s[i]) || 'a' <= s[i] <= 'f' }

  /** `CVE-\d{4}-\d{4,7}`. */
  predicate CveId(s: string) {
    && 13 <= |s| <= 16 && s[..4] == "CVE-" && s[8] == '-'
    && forall i :: 4 <= i < |s| && i != 8 ==> UnicodeDigit(s[i])
  }

  // ----- Scan for answer material -----

  predicate AnswerName(name: string) {
    Lower(name) in {"answer", "answerkey", "correct", "correctanswer", "correctoption", "correctoptions", "solution", "flag"}
  }

  predicate ContainsAnswerKey(t: Tree, depth: nat)
    decreases t
  {
    depth > 12
    || match t
       case Leaf => false
       case ListTree(items) => exists i :: 0 <= i < |items| && ContainsAnswerKey(items[i], depth + 1)
       case DictTree(members) =>
         exists i :: 0 <= i < |members| && (AnswerName(members[i].name) || ContainsAnswerKey(members[i].value, depth + 1))
  }

  /** `name` is a key somewhere inside. */
  ghost predicate Occurs(t: Tree, name: string)
    decreases t
  {
    match t
    case Leaf => false
    case ListTree(items) => exists i :: 0 <= i < |items| && Occurs(items[i], name)
    case DictTree(members) =>
      exists i :: 0 <= i < |members| && (members[i].name == name || Occurs(members[i].value, name))
  }

  /** Some value lies `depth` levels down. */
  ghost predicate Reaches(t: Tree, depth: nat)
    decreases t
  {
    depth == 0
    || match t
       case Leaf => false
       case ListTree(items) => exists i :: 0 <= i < |items| && Reaches(items[i], depth - 1)
       case DictTree(members) => exists i :: 0 <= i < |members| && Reaches(members[i].value, depth - 1)
  }

  /** The scan finds every answer name at any depth, and gives up on nothing but
      values nested more than twelve levels deep. */
  lemma {:induction false} ScanFinds(t: Tree, depth: nat)
    requires depth <= 12
    ensures ContainsAnswerKey(t, depth) <==> Reaches(t, 13 - depth) || exists name :: AnswerName(name) && Occurs(t, name)
    decreases t
  {
    match t
    case Leaf =>
    case ListTree(items) =>
      forall i | 0 <= i < |items|
        ensures ContainsAnswerKey(items[i], depth + 1)
           <==> Reaches(items[i], 12 - depth) || exists name :: AnswerName(name) && Occurs(items[i], name)
      {
        if depth < 12 { ScanFinds(items[i], depth + 1); }
      }
    case DictTree(members) =>
      forall i | 0 <= i < |members|
        ensures ContainsAnswerKey(members[i].value, depth + 1)
           <==> Reaches(members[i].value, 12 - depth) || exists name :: AnswerName(name) && Occurs(members[i].value, name)
      {
        if depth < 12 { ScanFinds(members[i].value, depth + 1); }
      }
  }

  function OptionTrees(options: seq<ChoiceOption>): Tree {
    ListTree(seq(|options|, i => DictTree([Entry("id", Leaf), Entry("label", Leaf)])))
  }

  /** The public question as the scan sees it. */
  function QuestionTree(q: PublicQuestion): Tree {
    DictTree([Entry("id", Leaf), Entry("type", Leaf), Entry("prompt", Leaf), Entry("points", Leaf),
              Entry("options", OptionTrees(q.options))] + q.extra)
  }

  // ----- Questions -----

  function PublicIds(questions: seq<PublicQuestion>): (ids: seq<string>)
    ensures |ids| == |questions|
  {
    seq(|questions|, i requires 0 <= i < |questions| => questions[i].id)
  }

  function OptionIds(options: seq<ChoiceOption>): (ids: seq<string>)
    ensures |ids| == |options|
  {
    seq(|options|, i requires 0 <= i < |options| => options[i].id)
  }

  predicate Choice(kind: QuestionType) { kind == SingleChoice || kind == MultipleChoice }

  ghost predicate OptionsOk(options: seq<ChoiceOption>) {
    && 2 <= |options| <= 8
    && (forall i :: 0 <= i < |options| ==> Identifier(options[i].id, 80) && Text(options[i].text, 1, 500))
    && Distinct(OptionIds(options))
  }

  ghost predicate PublicOk(q: PublicQuestion, requested: set<QuestionType>) {
    && Identifier(q.id, 80)
    && q.kind in requested
    && !ContainsAnswerKey(QuestionTree(q), 0)
    && Text(q.prompt, 10, 2000) && Hangul(q.prompt)
    && IntegerWithin(q.points, 1, 1000)
    && (Choice(q.kind) ==> OptionsOk(q.options))
  }

  function KindsOf(questions: seq<PublicQuestion>): set<QuestionType> {
    set q | q in questions :: q.kind
  }

  function CountOf(questions: seq<PublicQuestion>, kind: QuestionType): nat {
    if questions == [] then 0
    else CountOf(questions[..|questions| - 1], kind) + if questions[|questions| - 1].kind == kind then 1 else 0
  }

  function KindSet(kinds: seq<QuestionType>): set<QuestionType> { set k | k in kinds }

  function Requested(request: ContentRequest): set<QuestionType> { KindSet(request.questionTypes) }

  function FewestQuestions(request: ContentRequest): nat {
    if request.team == BLUE then 6
    else if |Requested(request)| > 4 then |Requested(request)| else 4
  }

  ghost predicate QuestionsOk(questions: seq<PublicQuestion>, request: ContentRequest) {
    && FewestQuestions(request) <= |questions| <= 20
    && (forall i :: 0 <= i < |questions| ==> PublicOk(questions[i], Requested(request)))
    && Distinct(PublicIds(questions))
    && KindsOf(questions) == Requested(request)
    && (request.team == BLUE ==>
          KindsOf(questions) == BLUE_QUESTIONS && CountOf(questions, ElkSearch) >= 3 && CountOf(questions, MitreAttack) >= 3)
    && (request.team == RED ==> KindsOf(questions) <= RED_QUESTIONS)
  }

  // ----- Grading contracts -----

  function ShownSet(values: seq<Value>): set<string> { set v | v in values :: Shown(v) }

  predicate KeyOk(kind: QuestionType, key: AnswerKey, options: seq<ChoiceOption>, telemetry: set<string>, techniques: set<string>) {
    match kind
    case SingleChoice =>
      key.optionIds.Some? && |key.optionIds.value| == 1 && ShownSet(key.optionIds.value) <= Members(OptionIds(options))
    case MultipleChoice =>
      var ids := Members(OptionIds(options));
      key.optionIds.Some? && 1 <= |key.optionIds.value| <= |ids| && ShownSet(key.optionIds.value) <= ids
    case MitreAttack => 1 <= |key.techniqueIds| <= 20 && ShownSet(key.techniqueIds) <= techniques
    case ElkSearch => 1 <= |key.expectedEvidenceIds| <= 100 && ShownSet(key.expectedEvidenceIds) <= telemetry
    case FreeText => Identifier(key.rubricId, 80)
    case OtherType(_) => false
  }

  predicate SamePoints(hidden: Amount, public: Amount) { public.Int? && PyEquals(hidden, public.n) }

  predicate PairOk(hidden: Question, public: PublicQuestion, telemetry: set<string>, techniques: set<string>) {
    && hidden.id == public.id && hidden.kind == public.kind && SamePoints(hidden.points, public.points)
    && KeyOk(hidden.kind, hidden.key, public.options, telemetry, techniques)
  }

  ghost predicate HiddenOk(hidden: Question, questions: seq<PublicQuestion>, telemetry: set<string>, techniques: set<string>) {
    Identifier(hidden.id, 80) && exists i :: 0 <= i < |questions| && PairOk(hidden, questions[i], telemetry, techniques)
  }

  ghost predicate GradingOk(grading: seq<Question>, questions: seq<PublicQuestion>, telemetry: set<string>, techniques: set<string>) {
    && |grading| == |questions|
    && (forall i :: 0 <= i < |grading| ==> HiddenOk(grading[i], questions, telemetry, techniques))
    && Members(Ids(grading)) == Members(PublicIds(questions))
  }

  // ----- Telemetry and scenario references -----

  function EventIds(events: seq<Event>): (ids: seq<string>)
    ensures |ids| == |events|
  {
    seq(|events|, i requires 0 <= i < |events| => events[i].id)
  }

  predicate HasEntry(t: Tree, name: string) {
    t.DictTree? && exists i :: 0 <= i < |t.members| && t.members[i].name == name
  }

  predicate HasDict(t: Tree, name: string) {
    t.DictTree? && exists i :: 0 <= i < |t.members| && t.members[i].name == name && t.members[i].value.DictTree?
  }

  predicate EventOk(e: Event) {
    && Identifier(e.id, 128) && e.size <= 32000 && e.document.DictTree?
    && HasEntry(e.document, "@timestamp") && HasDict(e.document, "event") && HasDict(e.document, "threat")
    && !ContainsAnswerKey(e.document, 0)
  }

  ghost predicate TelemetryOk(telemetry: Option<seq<Event>>, team: string) {
    team == BLUE ==>
      && telemetry.Some? && 1 <= |telemetry.value| <= 100
      && (forall i :: 0 <= i < |telemetry.value| ==> EventOk(telemetry.value[i]))
      && Distinct(EventIds(telemetry.value))
  }

  function TelemetryIds(telemetry: Option<seq<Event>>, team: string): set<string> {
    if team == BLUE && telemetry.Some? then Members(EventIds(telemetry.value)) else {}
  }

  predicate ChainOk(chain: seq<string>) {
    1 <= |chain| <= 50 && forall i :: 0 <= i < |chain| ==> PyTechnique(Upper(chain[i]))
  }

  function AttackIds(chain: seq<string>): set<string> { set t | t in chain :: Upper(t) }

  // ----- Build specification -----

  predicate SafePath(path: string) {
    && StartsWith(path, "/") && !StartsWith(path, "//") && |path| <= 500
    && (forall i :: 0 <= i < |path| ==> path[i] != '\\')
    && (forall i :: 0 <= i < |path| ==> !StartsWith(path[i..], "://"))
  }

  predicate ProbeOk(p: Probe, protocol: string) {
    && Identifier(p.id, 80)
    && (protocol == "http" ==>
          && p.kind == "http" && p.verb in {"GET", "HEAD"}
          && SafePath(p.path)
          && 1 <= |p.statuses| <= 8 && (forall i :: 0 <= i < |p.statuses| ==> IntegerWithin(p.statuses[i], 100, 599)))
    && (protocol == "tcp" ==> p.kind == "tcp_banner" && p.markers != [])
    && |p.markers| <= 8 && (forall i :: 0 <= i < |p.markers| ==> Text(p.markers[i], 1, 200))
  }

  predicate ArtifactOk(a: Artifact) {
    && StartsWith(a.url, "https://") && |a.url| <= 2000 && Hex64(a.sha256)
    && StartsWith(a.destination, "/opt/codegate/artifacts/") && 1 <= |a.destination| - 24 <= 128
    && forall i :: 24 <= i < |a.destination| ==> AlphaNumeric(a.destination[i]) || a.destination[i] in {'.', '_', '-'}
  }

  predicate HostChar(c: char) { AlphaNumeric(c) || c == '.' || c == '-' }

  /** A host, optionally with a port. */
  predicate RegistryHost(s: string) {
    exists end :: 0 < end <= |s| && PortAfter(s, end)
  }

  predicate PortAfter(s: string, end: nat)
    requires end <= |s|
  {
    && (forall i :: 0 <= i < end ==> HostChar(s[i]))
    && (end == |s| || (s[end] == ':' && end + 1 < |s| && forall i :: end < i < |s| ==> UnicodeDigit(s[i])))
  }

  /** `[a-z0-9.-]+(?::\d+)?/[a-z0-9._/-]+`, in either letter case. */
  predicate RepositoryName(s: string) {
    exists slash :: 0 <= slash < |s| && HostEndsAt(s, slash)
  }

  predicate HostEndsAt(s: string, slash: nat)
    requires slash < |s|
  {
    && slash + 1 < |s| && s[slash] == '/' && RegistryHost(s[..slash])
    && forall i :: slash < i < |s| ==> HostChar(s[i]) || s[i] == '_' || s[i] == '/'
  }

  const IMAGE_DIGEST := "@sha256:"

  /** A repository name pinned to a digest. */
  predicate PinnedImage(s: string) {
    && |s| > 72 && Hex64(s[|s| - 64..]) && Lower(s[|s| - 72..|s| - 64]) == IMAGE_DIGEST && RepositoryName(s[..|s| - 72])
  }

  predicate TargetOk(t: Target) {
    && Identifier(t.name, 80) && PinnedImage(t.baseImage) && RepositoryName(t.outputRepository)
    && IntegerWithin(t.port, 1, 65535) && t.protocol in {"http", "tcp"}
    && |t.packages| <= 100 && |t.artifacts| <= 20
    && (forall i :: 0 <= i < |t.packages| ==> Identifier(t.packages[i].name, 80) && Text(t.packages[i].version, 1, 100))
    && (forall i :: 0 <= i < |t.artifacts| ==> ArtifactOk(t.artifacts[i]))
    && 1 <= |t.functional| <= 20 && 1 <= |t.vulnerable| <= 20
    && (forall i :: 0 <= i < |t.functional| ==> ProbeOk(t.functional[i], t.protocol))
    && (forall i :: 0 <= i < |t.vulnerable| ==>
          ProbeOk(t.vulnerable[i], t.protocol) && (t.vulnerable[i].cveId != "" || t.vulnerable[i].findingId != ""))
  }

  /** `[a-z0-9][a-z0-9._-]{0,126}-\*`. */
  predicate IndexPattern(s: string) {
    && 3 <= |s| <= 129 && s[|s| - 2..] == "-*" && (AsciiDigit(s[0]) || 'a' <= s[0] <= 'z')
    && forall i :: 0 <= i < |s| - 2 ==> AsciiDigit(s[i]) || 'a' <= s[i] <= 'z' || s[i] in {'.', '_', '-'}
  }

  const PROFILES := {"powershell_rce_exfiltration", "credential_abuse", "ransomware", "webshell", "generic_intrusion",
                     "generic_endpoint_activity"}

  predicate GenerationOk(g: Generation, events: nat) {
    && g.version == 1 && g.profile in PROFILES
    && IntegerWithin(g.totalEvents, 100, 5000) && events <= g.totalEvents.n
    && IntegerWithin(g.timeRange, 15, 240) && g.unsupported == {}
    && Identifier(g.seed, 128) && g.anchorIsDate
  }

  predicate TopologyOk(t: Topology, telemetry: Option<seq<Event>>, team: string) {
    && t.version == 1 && t.team == team && t.isolation == "per_run" && t.hostname == "target" && t.unsupported == {}
    && t.role == (if team == BLUE then "soc_analyst" else "attack_operator")
    && t.desktopImage == (if team == BLUE then "ubuntu" else "kali")
    && t.entrypoint == (if team == BLUE then "kibana" else "target")
    && t.targetRole == (if team == BLUE then "monitored_target" else "vulnerable_target")
    && (team != BLUE ==> t.telemetry.None?)
    && (team == BLUE ==>
          && t.telemetry.Some?
          && var plan := t.telemetry.value;
             && plan.stack == "elastic" && plan.collector == "elastic_agent" && plan.generator == "scenario_log_generator"
             && plan.unsupported == {} && IndexPattern(plan.index) && telemetry == Some(plan.events)
             && GenerationOk(plan.generation, |plan.events|))
  }

  predicate RefOk(ref: HiddenRef, ids: set<string>) {
    && ref.questionId in ids && ref.unsupported == {}
    && StartsWith(ref.refId, "grading://") && 1 <= |ref.refId| - 10 <= 191 && AlphaNumeric(ref.refId[10])
    && (forall i :: 10 <= i < |ref.refId| ==> IdentifierChar(ref.refId[i]) || ref.refId[i] == '/')
    && StartsWith(ref.rubricDigest, "sha256:") && LowerHex64(ref.rubricDigest[7..])
  }

  predicate RefsOk(refs: seq<HiddenRef>, questions: seq<PublicQuestion>) {
    && |refs| == |questions|
    && (forall i :: 0 <= i < |refs| ==> RefOk(refs[i], Members(PublicIds(questions))))
    && (set r | r in refs :: r.questionId) == Members(PublicIds(questions))
  }

  const SHA256 := "sha256:"

  predicate BuildSpecOk(sha256: string -> string, p: TrainingPackage, request: ContentRequest) {
    var spec := p.spec;
    && spec.version == 1 && spec.team == request.team
    && p.topology == spec.topology && TopologyOk(spec.topology, spec.telemetry, request.team)
    && spec.promptDigest == SHA256 + sha256(request.prompt)
    && |spec.cveIds| <= 20 && (forall i :: 0 <= i < |spec.cveIds| ==> CveId(Upper(spec.cveIds[i])))
    && TargetOk(spec.target)
    && spec.learning == p.learning && spec.questions == p.questions
    && spec.summary == p.scenario.summary && spec.techniques == p.scenario.chain
    && RefsOk(spec.hiddenRefs, p.questions)
  }

  // ----- The whole contract -----

  predicate SectionOk(s: Section) {
    Identifier(s.id, 80) && Text(s.title, 3, 120) && Text(s.body, 20, 20000) && Hangul(s.title + " " + s.body)
  }

  predicate LearningOk(learning: Learning, team: string) {
    && (if team == BLUE then 6 else 5) <= |learning.sections| <= 12
    && forall i :: 0 <= i < |learning.sections| ==> SectionOk(learning.sections[i])
  }

  ghost predicate Accepts(sha256: string -> string, p: TrainingPackage, request: ContentRequest) {
    && LearningOk(p.learning, request.team)
    && QuestionsOk(p.questions, request)
    && TelemetryOk(p.spec.telemetry, request.team)
    && ChainOk(p.scenario.chain)
    && GradingOk(p.grading, p.questions, TelemetryIds(p.spec.telemetry, request.team), AttackIds(p.scenario.chain))
    && BuildSpecOk(sha256, p, request)
  }
}
