/** Concrete packages: drafts that the contract accepts and one it refuses, and three
    accepted packages on which grading does not do what acceptance promises. */
module AcceptedPackages {
  import opened Wrappers
  import opened Sorting
  import opened Questions
  import opened Grading
  import opened ContentContract
  import opened DraftGenerator
  import opened DraftAcceptance
  import opened GradableContent
  import opened Submission
  import opened DraftContract

  // ----- Sample texts -----

  function Repeated(c: char, n: nat): (s: string)
    ensures |s| == n && forall i :: 0 <= i < n ==> s[i] == c
  {
    if n == 0 then "" else [c] + Repeated(c, n - 1)
  }

  /** `n` Hangul syllables. */
  function Filler(n: nat): (s: string)
    ensures |s| == n && (n > 0 ==> Hangul(s))
  {
    assert n > 0 ==> Repeated('\U{AC00}', n)[0] as int == 0xAC00;
    Repeated('\U{AC00}', n)
  }

  const ZEROS := Repeated('0', 64)
  const SAMPLE_CATALOG := Catalog("registry.local/" + "base" + IMAGE_DIGEST + ZEROS, "registry.local/" + "targets")

  function SampleWording(team: string): Wording {
    var n := |SectionNames(team)|;
    Wording(SAMPLE_CATALOG, "", Filler(3), Filler(20), "", "",
            seq(n, i => Filler(3)), seq(n, i => Filler(20)), seq(if team == BLUE then 6 else 4, i => Filler(10)),
            seq(8, i => Filler(1)), seq(6, i => 0))
  }

  lemma HostOk()
    ensures RegistryHost("registry.local")
  {
    assert PortAfter("registry.local", 14);
  }

  lemma NameOk(name: string, path: string)
    requires name == "registry.local/" + path
    requires path != "" && forall i :: 0 <= i < |path| ==> HostChar(path[i])
    ensures RepositoryName(name)
  {
    HostOk();
    assert name[..14] == "registry.local" && name[14] == '/';
    var slash := 14;
    forall i | slash < i < |name| ensures HostChar(name[i]) { assert name[i] == path[i - 15]; }
    assert HostEndsAt(name, slash);
  }

  lemma PinnedBy(name: string, digest: string)
    requires RepositoryName(name) && name != "" && |digest| == 64 && Hex64(digest)
    ensures PinnedImage(name + IMAGE_DIGEST + digest)
  {
    var image := name + IMAGE_DIGEST + digest;
    assert image[|image| - 64..] == digest;
    assert image[|image| - 72..|image| - 64] == IMAGE_DIGEST;
    assert image[..|image| - 72] == name;
    assert Lower(IMAGE_DIGEST) == IMAGE_DIGEST;
  }

  lemma SampleImageFits()
    ensures PinnedImage(SAMPLE_CATALOG.baseImage)
  {
    NameOk("registry.local/" + "base", "base");
    PinnedBy("registry.local/" + "base", ZEROS);
  }

  lemma SampleCatalogFits()
    ensures PinnedImage(SAMPLE_CATALOG.baseImage) && RepositoryName(SAMPLE_CATALOG.outputRepository)
  {
    SampleImageFits();
    NameOk("registry.local/" + "targets", "targets");
  }

  ghost predicate FillerTexts(w: Wording, team: string) {
    && WordingShape(w, team)
    && (forall i :: 0 <= i < |w.titles| ==> |w.titles[i]| == 3 && |w.bodies[i]| == 20 && Hangul(w.titles[i] + " " + w.bodies[i]))
    && (forall i :: 0 <= i < |w.prompts| ==> |w.prompts[i]| == 10 && Hangul(w.prompts[i]))
    && (forall i :: 0 <= i < |w.labels| ==> |w.labels[i]| == 1)
    && (forall i :: 0 <= i < |w.eventSizes| ==> w.eventSizes[i] == 0)
  }

  lemma FillerTextsFit(w: Wording, team: string)
    requires FillerTexts(w, team) && PinnedImage(w.catalog.baseImage) && RepositoryName(w.catalog.outputRepository)
    requires |w.openingTitle| == 3 && Hangul(w.closing) && |w.closing| == 20
    requires w.summary == w.cveLead == w.cveTail == ""
    ensures WordingFits(w, team)
  {}

  lemma SampleTexts(team: string)
    ensures FillerTexts(SampleWording(team), team)
  {
    var w := SampleWording(team);
    forall i | 0 <= i < |w.titles| ensures Hangul(w.titles[i] + " " + w.bodies[i]) {
      HangulAtEnd(w.titles[i] + " ", w.bodies[i]);
    }
  }

  lemma SampleFits(team: string)
    ensures WordingFits(SampleWording(team), team)
  {
    SampleCatalogFits();
    SampleTexts(team);
    FillerTextsFit(SampleWording(team), team);
  }

  // ----- Accepted and refused drafts -----

  const TITLE := "Lab"
  const PROMPT := "0123456789"
  const SPACED_PROMPT := " 0123456789"
  const PROFILES := Profiles(GenericIntrusion, GenericValidation)

  function SampleRequest(team: string, prompt: string, types: seq<QuestionType>): GenerateRequest {
    GenerateRequest(TITLE, prompt, team, types, [])
  }

  lemma SampleNormal(team: string)
    requires team == BLUE || team == RED
    ensures Lower(Strip(team)) == team
  {
    assert Lower(BLUE) == BLUE && Lower(RED) == RED;
  }

  lemma SpaceStripped()
    ensures Strip(SPACED_PROMPT) == PROMPT && Strip(PROMPT) == PROMPT
  {
    assert SPACED_PROMPT[1..] == PROMPT;
    assert PySpace(SPACED_PROMPT[0]);
    assert !PySpace(PROMPT[0]) && !PySpace(PROMPT[9]);
    assert TrimBy(SPACED_PROMPT, PySpace) == TrimBy(SPACED_PROMPT[1..], PySpace);
  }

  lemma DraftMade(sha256: string -> string, request: GenerateRequest, profiles: Profiles, w: Wording)
    requires WordingShape(w, NormalTeam(request)) && |Strip(request.title)| >= 3 && |Strip(request.prompt)| >= 10
    requires SelectTypes(NormalTeam(request), request.questionTypes).Ok?
    ensures GenerateDraft(sha256, request, profiles, w).Ok?
  {}

  lemma SampleConforms(team: string, prompt: string, types: seq<QuestionType>, w: Wording)
    requires (team == BLUE || team == RED) && |prompt| <= 5000 && WordingFits(w, team)
    ensures NormalTeam(SampleRequest(team, prompt, types)) == team
    ensures Conforms(SampleRequest(team, prompt, types), w) <==> prompt == Strip(prompt)
  {
    var request := SampleRequest(team, prompt, types);
    SampleNormal(team);
    assert Cves(request.cveIds) == [];
    BoundedOpening(team, Strip(TITLE), Strip(prompt), w, []);
  }

  lemma TitleStripped()
    ensures Strip(TITLE) == TITLE && |TITLE| == 3
  {}

  lemma SampleDraftMade(sha256: string -> string, team: string, prompt: string, types: seq<QuestionType>, profiles: Profiles,
                        w: Wording)
    requires |Strip(prompt)| >= 10 && (team == BLUE || team == RED) && SelectTypes(team, types).Ok? && WordingShape(w, team)
    ensures GenerateDraft(sha256, SampleRequest(team, prompt, types), profiles, w).Ok?
  {
    TitleStripped();
    SampleNormal(team);
    DraftMade(sha256, SampleRequest(team, prompt, types), profiles, w);
  }

  /** The sample request always gets a draft, accepted exactly when its prompt is trimmed. */
  lemma SampleVerdict(sha256: string -> string, team: string, prompt: string, types: seq<QuestionType>, profiles: Profiles,
                      w: Wording)
    requires Digests(sha256) && TellsApart(sha256, prompt, Strip(prompt)) && |prompt| <= 5000 && |Strip(prompt)| >= 10
    requires (team == BLUE || team == RED) && SelectTypes(team, types).Ok? && WordingFits(w, team)
    ensures var request := SampleRequest(team, prompt, types);
            && NormalTeam(request) == team
            && var draft := GenerateDraft(sha256, request, profiles, w);
               draft.Ok? && (Accepts(sha256, draft.value, AskedOf(request)) <==> prompt == Strip(prompt))
  {
    var request := SampleRequest(team, prompt, types);
    SampleConforms(team, prompt, types, w);
    SampleDraftMade(sha256, team, prompt, types, profiles, w);
    DraftAcceptedIff(sha256, request, profiles, w);
  }

  /** Whatever the hash, as long as it prints digests, an ordinary request for either
      team gets a draft, and the contract accepts it. */
  lemma OrdinaryDraftAccepted(sha256: string -> string, team: string, types: seq<QuestionType>, profiles: Profiles, w: Wording)
    requires Digests(sha256) && (team == BLUE || team == RED) && SelectTypes(team, types).Ok? && WordingFits(w, team)
    ensures var request := SampleRequest(team, PROMPT, types);
            && NormalTeam(request) == team
            && var draft := GenerateDraft(sha256, request, profiles, w);
               draft.Ok? && Accepts(sha256, draft.value, AskedOf(request))
  {
    SpaceStripped();
    SampleVerdict(sha256, team, PROMPT, types, profiles, w);
  }

  /** One space before the prompt, and the draft for the very same request is refused,
      unless the hash confuses the two prompts. */
  lemma SpacedDraftRefused(sha256: string -> string, team: string, types: seq<QuestionType>, profiles: Profiles, w: Wording)
    requires Digests(sha256) && sha256(SPACED_PROMPT) != sha256(PROMPT)
    requires (team == BLUE || team == RED) && SelectTypes(team, types).Ok? && WordingFits(w, team)
    ensures var request := SampleRequest(team, SPACED_PROMPT, types);
            && NormalTeam(request) == team
            && var draft := GenerateDraft(sha256, request, profiles, w);
               draft.Ok? && !Accepts(sha256, draft.value, AskedOf(request))
  {
    SpaceStripped();
    assert SPACED_PROMPT[0] != PROMPT[0];
    SampleVerdict(sha256, team, SPACED_PROMPT, types, profiles, w);
  }

  /** A hash that prints digests, so that the results above speak of something. */
  function ZeroHash(s: string): string { ZEROS }

  lemma DigestsExist()
    ensures Digests(ZeroHash)
  {}

  // ----- Packages of four equal questions -----

  function UniformPairs(kind: QuestionType, public: Amount, hidden: Amount, options: seq<ChoiceOption>, key: AnswerKey)
    : (pairs: QuestionPairs)
    ensures |pairs.public| == |pairs.hidden| == 4
  {
    QuestionPairs(seq(4, i requires 0 <= i < 4 => PublicQuestion(RedId(i), kind, Filler(10), public, options, [])),
                  seq(4, i requires 0 <= i < 4 => Question(RedId(i), kind, hidden, key)))
  }

  /** A red draft with its questions and its attack chain replaced throughout. */
  function PackageWith(sha256: string -> string, pairs: QuestionPairs, chain: seq<string>): TrainingPackage {
    var base := PackageFor(sha256, RED, TITLE, PROMPT, [FreeText], [], PROFILES, SampleWording(RED));
    base.(questions := pairs.public, grading := pairs.hidden, scenario := Scenario(base.scenario.summary, chain),
          spec := base.spec.(questions := pairs.public, techniques := chain, hiddenRefs := RefsFor(sha256, pairs.public)))
  }

  function Asking(kind: QuestionType): ContentRequest { ContentRequest(RED, PROMPT, [kind]) }

  lemma UniformQuestionsOk(kind: QuestionType, public: Amount, hidden: Amount, options: seq<ChoiceOption>, key: AnswerKey)
    requires kind in RED_QUESTIONS && IntegerWithin(public, 1, 1000) && (Choice(kind) ==> OptionsOk(options))
    ensures QuestionsOk(UniformPairs(kind, public, hidden, options, key).public, Asking(kind))
  {
    var questions := UniformPairs(kind, public, hidden, options, key).public;
    assert kind in [kind];
    assert Requested(Asking(kind)) == {kind};
    forall i | 0 <= i < 4 ensures PublicOk(questions[i], {kind}) {
      RedIdsOk(i);
      NoEntriesHarmless(questions[i]);
    }
    forall i, j | 0 <= i < j < 4 ensures PublicIds(questions)[i] != PublicIds(questions)[j] { RedIdsDiffer(i, j); }
    assert questions[0] in questions;
    assert KindsOf(questions) == {kind};
  }

  lemma UniformGradingOk(kind: QuestionType, public: Amount, hidden: Amount, options: seq<ChoiceOption>, key: AnswerKey,
                         techniques: set<string>)
    requires SamePoints(hidden, public) && KeyOk(kind, key, options, {}, techniques)
    ensures var pairs := UniformPairs(kind, public, hidden, options, key);
            GradingOk(pairs.hidden, pairs.public, {}, techniques)
  {
    var pairs := UniformPairs(kind, public, hidden, options, key);
    forall i | 0 <= i < 4
      ensures Identifier(pairs.hidden[i].id, 80) && PairOk(pairs.hidden[i], pairs.public[i], {}, techniques)
    {
      RedIdsOk(i);
    }
    PlacewiseGrading(pairs.hidden, pairs.public, {}, techniques);
  }

  lemma PackageBuildOk(sha256: string -> string, pairs: QuestionPairs, chain: seq<string>, kind: QuestionType)
    requires Digests(sha256) && forall i :: 0 <= i < |pairs.public| ==> Identifier(pairs.public[i].id, 80)
    ensures LearningOk(PackageWith(sha256, pairs, chain).learning, RED)
    ensures BuildSpecOk(sha256, PackageWith(sha256, pairs, chain), Asking(kind))
  {
    var w := SampleWording(RED);
    SampleFits(RED);
    OpeningLength(RED, TITLE, PROMPT, w, []);
    LearningOkIff(RED, TITLE, PROMPT, w, []);
    RefsFit(sha256, pairs.public);
    BuildSpecIff(sha256, PackageWith(sha256, pairs, chain), Asking(kind), PROMPT, SAMPLE_CATALOG, []);
  }

  /** Four equal questions make an accepted package whenever one pair of them meets the
      contract's rules for public questions, points and keys. */
  lemma UniformAccepted(sha256: string -> string, kind: QuestionType, public: Amount, hidden: Amount,
                        options: seq<ChoiceOption>, key: AnswerKey, chain: seq<string>)
    requires Digests(sha256) && kind in RED_QUESTIONS && ChainOk(chain)
    requires IntegerWithin(public, 1, 1000) && SamePoints(hidden, public)
    requires (Choice(kind) ==> OptionsOk(options)) && KeyOk(kind, key, options, {}, AttackIds(chain))
    ensures Accepts(sha256, PackageWith(sha256, UniformPairs(kind, public, hidden, options, key), chain), Asking(kind))
  {
    var pairs := UniformPairs(kind, public, hidden, options, key);
    UniformQuestionsOk(kind, public, hidden, options, key);
    UniformGradingOk(kind, public, hidden, options, key, AttackIds(chain));
    forall i | 0 <= i < 4 ensures Identifier(pairs.public[i].id, 80) { RedIdsOk(i); }
    PackageBuildOk(sha256, pairs, chain, kind);
  }

  // ----- Accepted, and yet -----

  const ONE_TECHNIQUE := ["T1190"]

  lemma OneTechniqueOk()
    ensures ChainOk(ONE_TECHNIQUE) && Technique(ONE_TECHNIQUE[0])
  {
    TechniqueIsNormal("T1190");
    PyTechniqueIsNormal("T1190");
  }

  function TruePointsPackage(sha256: string -> string): TrainingPackage {
    PackageWith(sha256, UniformPairs(FreeText, Int(1), Truth(true), [], RubricAnswer("rubric")), ONE_TECHNIQUE)
  }

  /** An accepted package that no submission at all can be graded against: its hidden
      points are `true`, which equals one point for the contract. */
  lemma TruePointsAcceptedAndThrow(sha256: string -> string)
    requires Digests(sha256)
    ensures Accepts(sha256, TruePointsPackage(sha256), Asking(FreeText))
    ensures forall answers, evidence, passScore :: GradeRun(TruePointsPackage(sha256).grading, answers, evidence, passScore).Err?
  {
    OneTechniqueOk();
    assert Identifier("rubric", 80);
    UniformAccepted(sha256, FreeText, Int(1), Truth(true), [], RubricAnswer("rubric"), ONE_TECHNIQUE);
    var questions := TruePointsPackage(sha256).grading;
    forall answers, evidence, passScore: real ensures GradeRun(questions, answers, evidence, passScore).Err? {
      GradeRunTotals(questions, answers, evidence, passScore);
      assert !Scorable(questions[0]);
    }
  }

  /** When no response matches any question of a locally graded kind, every grade is zero. */
  lemma NothingMatches(questions: seq<Question>, answers: seq<Answer>, evidence: seq<Evidence>, passScore: real)
    requires forall i :: 0 <= i < |questions| ==> SourceFor(questions[i].kind).None?
    requires forall i, response :: 0 <= i < |questions| ==> !Matches(questions[i], response)
    ensures var run := GradeRun(questions, answers, evidence, passScore); run.Ok? ==> run.value.awarded == 0
  {
    GradeRunTotals(questions, answers, evidence, passScore);
    if GradeRun(questions, answers, evidence, passScore).Ok? {
      var grades := GradeRun(questions, answers, evidence, passScore).value.grades;
      forall i | 0 <= i < |grades| ensures grades[i].awarded == 0 {
        assert !Matches(questions[i], ResponseTo(answers, questions[i].id));
      }
    }
  }

  ghost predicate Worthless(questions: seq<Question>) {
    && GradeRun(questions, [], [], 70.0).Ok?
    && forall answers, evidence, passScore ::
         GradeRun(questions, answers, evidence, passScore).Ok? ==> GradeRun(questions, answers, evidence, passScore).value.awarded == 0
  }

  /** Four questions with one key that nothing matches. */
  ghost predicate Unmatched(questions: seq<Question>, kind: QuestionType, points: int, key: AnswerKey) {
    && |questions| == 4 && SourceFor(kind).None?
    && (forall i :: 0 <= i < 4 ==> questions[i] == Question(RedId(i), kind, Int(points), key))
    && (forall i, response :: 0 <= i < 4 ==> !Matches(Question(RedId(i), kind, Int(points), key), response))
  }

  lemma UnmatchedFacts(questions: seq<Question>, kind: QuestionType, points: int, key: AnswerKey)
    requires Unmatched(questions, kind, points, key)
    ensures !SomeTruth(questions)
    ensures forall i :: 0 <= i < |questions| ==> SourceFor(questions[i].kind).None?
    ensures forall i, response :: 0 <= i < |questions| ==> !Matches(questions[i], response)
  {}

  lemma EmptyInOrder(questions: seq<Question>)
    ensures InOrder(questions, [], [])
  {}

  lemma UnmatchedWorthless(sha256: string -> string, p: TrainingPackage, asked: ContentRequest,
                           kind: QuestionType, points: int, key: AnswerKey)
    requires Accepts(sha256, p, asked) && Unmatched(p.grading, kind, points, key)
    ensures Worthless(p.grading)
  {
    UnmatchedFacts(p.grading, kind, points, key);
    EmptyInOrder(p.grading);
    AcceptedNeverThrows(sha256, p, asked, [], [], 70.0);
    AllWorthless(p.grading);
  }

  lemma AllWorthless(questions: seq<Question>)
    requires GradeRun(questions, [], [], 70.0).Ok?
    requires forall i :: 0 <= i < |questions| ==> SourceFor(questions[i].kind).None?
    requires forall i, response :: 0 <= i < |questions| ==> !Matches(questions[i], response)
    ensures Worthless(questions)
  {
    forall answers, evidence, passScore: real
      ensures GradeRun(questions, answers, evidence, passScore).Ok? ==> GradeRun(questions, answers, evidence, passScore).value.awarded == 0
    {
      NothingMatches(questions, answers, evidence, passScore);
    }
  }

  const NUMBERED_OPTIONS := [ChoiceOption("1", "first"), ChoiceOption("2", "second")]

  const NUMBER_KEY := AnswerKey(Some([NotStr("1")]), None, [], [], "")

  function NumberKeyPackage(sha256: string -> string): TrainingPackage {
    PackageWith(sha256, UniformPairs(SingleChoice, Int(10), Int(10), NUMBERED_OPTIONS, NUMBER_KEY), ONE_TECHNIQUE)
  }

  lemma NumberKeyAccepted(sha256: string -> string)
    requires Digests(sha256)
    ensures Accepts(sha256, NumberKeyPackage(sha256), Asking(SingleChoice))
  {
    OneTechniqueOk();
    NumberKeyPassesAndIsUnanswerable();
    UniformAccepted(sha256, SingleChoice, Int(10), Int(10), NUMBERED_OPTIONS, NUMBER_KEY, ONE_TECHNIQUE);
  }

  lemma NumberKeyNeverMatches(id: string, points: Amount, response: Response)
    ensures !Matches(Question(id, SingleChoice, points, NUMBER_KEY), response)
  {
    NumberKeyPassesAndIsUnanswerable();
  }

  lemma NumberKeyUnmatched()
    ensures Unmatched(UniformPairs(SingleChoice, Int(10), Int(10), NUMBERED_OPTIONS, NUMBER_KEY).hidden, SingleChoice, 10, NUMBER_KEY)
  {
    forall i, response | 0 <= i < 4 ensures !Matches(Question(RedId(i), SingleChoice, Int(10), NUMBER_KEY), response) {
      NumberKeyNeverMatches(RedId(i), Int(10), response);
    }
  }

  ghost predicate PlainPairs(pairs: QuestionPairs) {
    && |pairs.public| >= 1
    && (forall i :: 0 <= i < |pairs.public| ==> PlainQuestion(pairs.public[i]))
    && (forall i :: 0 <= i < |pairs.hidden| ==> pairs.hidden[i].points.Int?)
  }

  lemma PackageParts(sha256: string -> string, pairs: QuestionPairs, chain: seq<string>)
    ensures var p := PackageWith(sha256, pairs, chain);
            p.questions == pairs.public && p.grading == pairs.hidden && p.scenario.chain == chain
  {}

  lemma NumberKeyPlain()
    ensures PlainPairs(UniformPairs(SingleChoice, Int(10), Int(10), NUMBERED_OPTIONS, NUMBER_KEY))
  {}

  lemma PlainTaken(sha256: string -> string, p: TrainingPackage, pairs: QuestionPairs, kind: QuestionType)
    requires Accepts(sha256, p, Asking(kind)) && PlainPairs(pairs)
    requires p.questions == pairs.public && p.grading == pairs.hidden && p.scenario.chain == ONE_TECHNIQUE
    ensures Taken(p, Asking(kind))
  {
    OneTechniqueOk();
    AcceptedPlainTaken(sha256, p, Asking(kind));
  }

  /** An accepted package, which the API takes over as well, on which every submission
      scores nothing: its keys are the number 1 for the option "1". */
  lemma NumberKeyAcceptedAndWorthless(sha256: string -> string)
    requires Digests(sha256)
    ensures Accepts(sha256, NumberKeyPackage(sha256), Asking(SingleChoice))
    ensures Taken(NumberKeyPackage(sha256), Asking(SingleChoice))
    ensures Worthless(NumberKeyPackage(sha256).grading)
  {
    NumberKeyAccepted(sha256);
    NumberKeyPlain();
    var pairs := UniformPairs(SingleChoice, Int(10), Int(10), NUMBERED_OPTIONS, NUMBER_KEY);
    PackageParts(sha256, pairs, ONE_TECHNIQUE);
    PlainTaken(sha256, NumberKeyPackage(sha256), pairs, SingleChoice);
    NumberKeyUnmatched();
    UnmatchedWorthless(sha256, NumberKeyPackage(sha256), Asking(SingleChoice), SingleChoice, 10, NUMBER_KEY);
  }

  const FOREIGN_TECHNIQUE := "T105\U{0669}"
  const FOREIGN_KEY := AnswerKey(None, None, [Str(FOREIGN_TECHNIQUE)], [], "")

  function ForeignDigitsPackage(sha256: string -> string): TrainingPackage {
    PackageWith(sha256, UniformPairs(MitreAttack, Int(20), Int(20), [], FOREIGN_KEY), [FOREIGN_TECHNIQUE])
  }

  lemma ForeignDigitsAccepted(sha256: string -> string)
    requires Digests(sha256)
    ensures Accepts(sha256, ForeignDigitsPackage(sha256), Asking(MitreAttack))
  {
    ForeignDigitsPassAndAreUnanswerable();
    UniformAccepted(sha256, MitreAttack, Int(20), Int(20), [], FOREIGN_KEY, [FOREIGN_TECHNIQUE]);
  }

  lemma ForeignKeyNeverMatches(id: string, points: Amount, response: Response)
    ensures !Matches(Question(id, MitreAttack, points, FOREIGN_KEY), response)
  {
    ForeignDigitsPassAndAreUnanswerable();
  }

  lemma ForeignDigitsUnmatched()
    ensures Unmatched(UniformPairs(MitreAttack, Int(20), Int(20), [], FOREIGN_KEY).hidden, MitreAttack, 20, FOREIGN_KEY)
  {
    forall i, response | 0 <= i < 4 ensures !Matches(Question(RedId(i), MitreAttack, Int(20), FOREIGN_KEY), response) {
      ForeignKeyNeverMatches(RedId(i), Int(20), response);
    }
  }

  lemma ForeignDigitsNotTaken(sha256: string -> string)
    ensures !Taken(ForeignDigitsPackage(sha256), Asking(MitreAttack))
  {
    assert !Technique(ForeignDigitsPackage(sha256).scenario.chain[0]);
  }

  /** An accepted package on which every submission scores nothing: its technique is
      written with an Arabic-Indic digit. The API refuses to take it over. */
  lemma ForeignDigitsAcceptedAndWorthless(sha256: string -> string)
    requires Digests(sha256)
    ensures Accepts(sha256, ForeignDigitsPackage(sha256), Asking(MitreAttack))
    ensures !Taken(ForeignDigitsPackage(sha256), Asking(MitreAttack))
    ensures Worthless(ForeignDigitsPackage(sha256).grading)
  {
    ForeignDigitsAccepted(sha256);
    ForeignDigitsNotTaken(sha256);
    ForeignDigitsUnmatched();
    PackageParts(sha256, UniformPairs(MitreAttack, Int(20), Int(20), [], FOREIGN_KEY), [FOREIGN_TECHNIQUE]);
    UnmatchedWorthless(sha256, ForeignDigitsPackage(sha256), Asking(MitreAttack), MitreAttack, 20, FOREIGN_KEY);
  }

  const TEXT_KEY := AnswerKey(Some([Str("1")]), None, [], [], "")

  function TextKeyPackage(sha256: string -> string): TrainingPackage {
    PackageWith(sha256, UniformPairs(SingleChoice, Int(10), Int(10), NUMBERED_OPTIONS, TEXT_KEY), ONE_TECHNIQUE)
  }

  lemma TextKeyAccepted(sha256: string -> string)
    requires Digests(sha256)
    ensures Accepts(sha256, TextKeyPackage(sha256), Asking(SingleChoice))
  {
    OneTechniqueOk();
    NumberKeyPassesAndIsUnanswerable();
    ShownOne(Str("1"));
    assert OptionIds(NUMBERED_OPTIONS)[0] == "1";
    UniformAccepted(sha256, SingleChoice, Int(10), Int(10), NUMBERED_OPTIONS, TEXT_KEY, ONE_TECHNIQUE);
  }

  lemma TextKeyAnswerable()
    ensures var hidden := UniformPairs(SingleChoice, Int(10), Int(10), NUMBERED_OPTIONS, TEXT_KEY).hidden;
            !SomeTruth(hidden) && AllAnswerable(hidden)
  {
    assert [Str("1")][0].Str?;
  }

  /** With a string for its key the same package can be answered in full. */
  lemma TextKeyAcceptedAndFull(sha256: string -> string)
    requires Digests(sha256)
    ensures Accepts(sha256, TextKeyPackage(sha256), Asking(SingleChoice))
    ensures FullMarksPossible(TextKeyPackage(sha256).grading, 70.0)
  {
    TextKeyAccepted(sha256);
    TextKeyAnswerable();
    PackageParts(sha256, UniformPairs(SingleChoice, Int(10), Int(10), NUMBERED_OPTIONS, TEXT_KEY), ONE_TECHNIQUE);
    FullMarksIff(sha256, TextKeyPackage(sha256), Asking(SingleChoice), 70.0);
  }
}
