/** The generator against the contract: which drafts pass it. */
module DraftAcceptance {
  import opened Wrappers
  import opened Sorting
  import opened Questions
  import opened ContentContract
  import opened DraftGenerator

  /** The bounds that the fixed texts keep, and the shape the catalog loader demands. */
  predicate WordingFits(w: Wording, team: string) {
    && WordingShape(w, team)
    && PinnedImage(w.catalog.baseImage) && RepositoryName(w.catalog.outputRepository)
    && Text(w.openingTitle, 3, 120) && Hangul(w.closing) && 20 <= |w.closing|
    && |w.summary| + |w.closing| + |w.cveLead| + |w.cveTail| <= 2000
    && (forall i :: 0 <= i < |w.titles| ==> Text(w.titles[i], 3, 120) && Text(w.bodies[i], 20, 20000) && Hangul(w.titles[i] + " " + w.bodies[i]))
    && (forall i :: 0 <= i < |w.prompts| ==> Text(w.prompts[i], 10, 2000) && Hangul(w.prompts[i]))
    && (forall i :: 0 <= i < |w.labels| ==> Text(w.labels[i], 1, 500))
    && (forall i :: 0 <= i < |w.eventSizes| ==> w.eventSizes[i] <= 32000)
  }

  // ----- Learning -----

  lemma HangulAtEnd(front: string, back: string)
    requires Hangul(back)
    ensures Hangul(front + back)
  {
    var i :| 0 <= i < |back| && 0xAC00 <= back[i] as int <= 0xD7A3;
    assert (front + back)[|front| + i] == back[i];
  }

  function OpeningFront(team: string, title: string, prompt: string, w: Wording, cves: seq<string>): string {
    if team == BLUE then "## " + title + "\n\n" + prompt + "\n\n" + w.summary + CveNote(w, cves) + "\n\n"
    else "## " + title + "\n\n" + prompt + CveNote(w, cves) + "\n\n" + w.summary + "\n\n"
  }

  lemma OpeningEndsInClosing(team: string, title: string, prompt: string, w: Wording, cves: seq<string>)
    requires Hangul(w.closing) && 20 <= |w.closing|
    ensures 20 <= |OpeningBody(team, title, prompt, w, cves)|
    ensures Hangul(w.openingTitle + " " + OpeningBody(team, title, prompt, w, cves))
  {
    var front := OpeningFront(team, title, prompt, w, cves);
    HangulAtEnd(front, w.closing);
    HangulAtEnd(w.openingTitle + " ", front + w.closing);
    if team == BLUE {
      assert OpeningBody(team, title, prompt, w, cves) == front + w.closing;
    } else {
      assert OpeningBody(team, title, prompt, w, cves) == front + w.closing;
    }
  }

  lemma BlueSectionsOk(i: nat)
    requires i < 5
    ensures Identifier(BLUE_SECTIONS[i], 80)
  {}

  lemma RedSectionsOk(i: nat)
    requires i < 4
    ensures Identifier(RED_SECTIONS[i], 80)
  {}

  lemma SectionNamesOk(team: string, i: nat)
    requires i < |SectionNames(team)|
    ensures Identifier(SectionNames(team)[i], 80)
  {
    if team == BLUE { BlueSectionsOk(i); } else { RedSectionsOk(i); }
  }

  lemma OpeningNameOk()
    ensures Identifier("threat-context", 80)
  {}

  lemma OpeningOkIff(team: string, title: string, prompt: string, w: Wording, cves: seq<string>)
    requires WordingFits(w, team)
    ensures SectionOk(LearningFor(team, title, prompt, w, cves).sections[0])
       <==> |OpeningBody(team, title, prompt, w, cves)| <= 20000
  {
    OpeningEndsInClosing(team, title, prompt, w, cves);
    OpeningNameOk();
  }

  lemma LaterSectionOk(team: string, title: string, prompt: string, w: Wording, cves: seq<string>, i: nat)
    requires WordingFits(w, team) && 1 <= i < 1 + |SectionNames(team)|
    ensures SectionOk(LearningFor(team, title, prompt, w, cves).sections[i])
  {
    SectionNamesOk(team, i - 1);
  }

  /** Only the opening section can break the contract, by being too long. */
  lemma LearningOkIff(team: string, title: string, prompt: string, w: Wording, cves: seq<string>)
    requires WordingFits(w, team)
    ensures LearningOk(LearningFor(team, title, prompt, w, cves), team)
       <==> |OpeningBody(team, title, prompt, w, cves)| <= 20000
  {
    var learning := LearningFor(team, title, prompt, w, cves);
    OpeningOkIff(team, title, prompt, w, cves);
    forall i | 1 <= i < |learning.sections| ensures SectionOk(learning.sections[i]) {
      LaterSectionOk(team, title, prompt, w, cves, i);
    }
  }

  // ----- Telemetry -----

  /** The shapes of the names that count as answer material. */
  lemma AnswerNameShape(name: string)
    requires AnswerName(name)
    ensures (LowerChar(name[0]), |name|) in {('a', 6), ('a', 9), ('c', 7), ('c', 13), ('c', 14), ('s', 8), ('f', 4)}
    ensures |name| == 4 ==> LowerChar(name[1]) == 'l'
  {
    assert Lower(name)[0] == LowerChar(name[0]);
    assert Lower(name)[1] == LowerChar(name[1]);
  }

  predicate PlainName(name: string) {
    name != "" ==> LowerChar(name[0]) !in {'a', 'c', 's', 'f'} || |name| < 3 || name in {"category", "source", "framework", "file"}
  }

  lemma PlainNameIsNoAnswer(name: string)
    requires PlainName(name)
    ensures !AnswerName(name)
  {
    if AnswerName(name) { AnswerNameShape(name); }
  }

  lemma NamedHarmless(name: string, inner: seq<string>, depth: nat)
    requires depth <= 11
    requires forall i :: 0 <= i < |inner| ==> PlainName(inner[i])
    ensures !ContainsAnswerKey(Named(name, inner).value, depth)
  {
    forall i | 0 <= i < |inner| ensures !AnswerName(inner[i]) { PlainNameIsNoAnswer(inner[i]); }
  }

  predicate HarmlessEntries(entries: seq<Entry>, depth: nat) {
    forall i :: 0 <= i < |entries| ==> PlainName(entries[i].name) && !ContainsAnswerKey(entries[i].value, depth)
  }

  lemma DictHarmless(entries: seq<Entry>, depth: nat)
    requires depth <= 12 && HarmlessEntries(entries, depth + 1)
    ensures !ContainsAnswerKey(DictTree(entries), depth)
  {
    forall i | 0 <= i < |entries| ensures !AnswerName(entries[i].name) { PlainNameIsNoAnswer(entries[i].name); }
  }

  lemma ProcessHarmless()
    ensures !ContainsAnswerKey(DictTree([Entry("name", Leaf), Named("parent", ["name"]), Entry("entity_id", Leaf)]), 1)
  {
    NamedHarmless("parent", ["name"], 2);
    DictHarmless([Entry("name", Leaf), Named("parent", ["name"]), Entry("entity_id", Leaf)], 1);
  }

  lemma FileFieldsHarmless()
    ensures HarmlessEntries([Named("host", ["name"]), Named("user", ["name"]), Named("file", ["path"])], 1)
  {
    NamedHarmless("host", ["name"], 1);
    NamedHarmless("user", ["name"], 1);
    NamedHarmless("file", ["path"], 1);
  }

  lemma NetworkFieldsHarmless()
    ensures HarmlessEntries([Named("host", ["name"]), Named("user", ["name"]), Named("source", ["ip", "bytes"]),
                             Named("destination", ["ip", "port"]), Named("network", ["direction", "transport"])], 1)
  {
    NamedHarmless("host", ["name"], 1);
    NamedHarmless("user", ["name"], 1);
    NamedHarmless("source", ["ip", "bytes"], 1);
    NamedHarmless("destination", ["ip", "port"], 1);
    NamedHarmless("network", ["direction", "transport"], 1);
  }

  lemma SignalFieldsHarmless(p: BlueProfile, i: nat)
    requires i < 6
    ensures HarmlessEntries(Signals(p)[i].fields, 1)
  {
    if i == 5 {
      NetworkFieldsHarmless();
    } else if i >= 3 {
      FileFieldsHarmless();
    } else {
      NamedHarmless("host", ["name"], 1);
      NamedHarmless("user", ["name"], 1);
      NamedHarmless("url", ["path"], 1);
      NamedHarmless("source", ["ip"], 1);
      NamedHarmless("process", ["name", "entity_id"], 1);
      ProcessHarmless();
    }
  }

  lemma SignalDocumentHarmless(s: Signal)
    requires HarmlessEntries(s.fields, 1)
    ensures !ContainsAnswerKey(SignalDocument(s), 0)
    ensures HasEntry(SignalDocument(s), "@timestamp") && HasDict(SignalDocument(s), "event") && HasDict(SignalDocument(s), "threat")
  {
    var event := Named("event", ["id", "kind", "category", "dataset"]);
    var ids := ListTree([Leaf]);
    var technique := DictTree([Entry("id", ids)]);
    var threat := DictTree([Entry("framework", Leaf), Entry("technique", technique)]);
    NamedHarmless("event", ["id", "kind", "category", "dataset"], 1);
    assert !ContainsAnswerKey(ids, 3);
    DictHarmless([Entry("id", ids)], 2);
    DictHarmless([Entry("framework", Leaf), Entry("technique", technique)], 1);
    var front := [Entry("@timestamp", Leaf), Entry("message", Leaf), event];
    var all := front + s.fields + [Entry("threat", threat)];
    assert SignalDocument(s) == DictTree(all);
    assert HarmlessEntries(front, 1);
    forall i | 0 <= i < |all| ensures PlainName(all[i].name) && !ContainsAnswerKey(all[i].value, 1) {
      if 3 <= i < |all| - 1 { assert all[i] == s.fields[i - 3]; }
    }
    DictHarmless(all, 0);
    assert all[0].name == "@timestamp" && all[2].name == "event" && all[|all| - 1].name == "threat";
  }

  lemma PowershellIdsOk(i: nat)
    requires i < 3
    ensures Identifier(Signals(PowershellExfiltration)[i].id, 128)
  {}

  lemma PowershellLaterIdsOk(i: nat)
    requires 3 <= i < 6
    ensures Identifier(Signals(PowershellExfiltration)[i].id, 128)
  {}

  lemma OtherIdsOk(p: BlueProfile, i: nat)
    requires p != PowershellExfiltration && i < 3
    ensures Identifier(Signals(p)[i].id, 128)
  {}

  lemma OtherLaterIdsOk(p: BlueProfile, i: nat)
    requires p != PowershellExfiltration && 3 <= i < 6
    ensures Identifier(Signals(p)[i].id, 128)
  {}

  lemma SignalIdOk(p: BlueProfile, i: nat)
    requires i < 6
    ensures Identifier(Signals(p)[i].id, 128)
  {
    if p == PowershellExfiltration {
      if i < 3 { PowershellIdsOk(i); } else { PowershellLaterIdsOk(i); }
    } else {
      if i < 3 { OtherIdsOk(p, i); } else { OtherLaterIdsOk(p, i); }
    }
  }

  lemma SignalIdsDiffer(p: BlueProfile, i: nat, j: nat)
    requires i < j < 6
    ensures Signals(p)[i].id != Signals(p)[j].id
  {
    var a, b := Signals(p)[i].id, Signals(p)[j].id;
    assert |a| != |b| || a[7] != b[7] || (|a| > 20 && |b| > 20 && a[20] != b[20]);
  }

  lemma SignalEventsOk(p: BlueProfile, w: Wording)
    requires WordingFits(w, BLUE)
    ensures TelemetryOk(Some(SignalEvents(p, w)), BLUE)
  {
    var events := SignalEvents(p, w);
    forall i | 0 <= i < |events| ensures EventOk(events[i]) {
      SignalIdOk(p, i);
      SignalFieldsHarmless(p, i);
      SignalDocumentHarmless(Signals(p)[i]);
    }
    forall i, j | 0 <= i < j < |events| ensures EventIds(events)[i] != EventIds(events)[j] { SignalIdsDiffer(p, i, j); }
  }

  // ----- Techniques -----

  lemma BlueTechniques(p: BlueProfile, i: nat)
    requires i < |BlueChain(p)|
    ensures Technique(BlueChain(p)[i])
  {}

  lemma RedTechniques(p: RedProfile, i: nat)
    requires i < |RedChain(p)|
    ensures Technique(RedChain(p)[i])
  {}

  lemma TechniquesOk(chain: seq<string>)
    requires 1 <= |chain| <= 50 && forall i :: 0 <= i < |chain| ==> Technique(chain[i])
    ensures ChainOk(chain) && AttackIds(chain) == Members(chain)
  {
    forall i | 0 <= i < |chain| ensures Upper(chain[i]) == chain[i] && PyTechnique(chain[i]) {
      TechniqueIsNormal(chain[i]);
      PyTechniqueIsNormal(chain[i]);
    }
    forall t ensures t in AttackIds(chain) <==> t in Members(chain) {
      if t in Members(chain) {
        var i :| 0 <= i < |chain| && chain[i] == t;
        assert Upper(chain[i]) in AttackIds(chain);
      }
      if t in AttackIds(chain) { var u :| u in chain && Upper(u) == t; }
    }
  }

  // ----- Keys -----

  lemma ShownTexts(items: seq<string>, all: set<string>)
    requires forall x :: x in items ==> x in all
    ensures ShownSet(Texts(items)) <= all
  {
    forall s | s in ShownSet(Texts(items)) ensures s in all {
      var v :| v in Texts(items) && Shown(v) == s;
      var i :| 0 <= i < |items| && Texts(items)[i] == v;
      assert items[i] in items;
    }
  }

  /** Public and hidden questions that agree place by place satisfy the pairing of questions. */
  lemma PlacewiseGrading(grading: seq<Question>, questions: seq<PublicQuestion>, telemetry: set<string>, techniques: set<string>)
    requires |grading| == |questions|
    requires forall i :: 0 <= i < |grading| ==>
               Identifier(grading[i].id, 80) && PairOk(grading[i], questions[i], telemetry, techniques)
    ensures GradingOk(grading, questions, telemetry, techniques)
  {
    forall i | 0 <= i < |grading| ensures HiddenOk(grading[i], questions, telemetry, techniques) {
      assert PairOk(grading[i], questions[i], telemetry, techniques);
    }
    assert Ids(grading) == PublicIds(questions);
  }

  // ----- Blue questions -----

  lemma BlueIdsOk(i: nat)
    requires i < 6
    ensures Identifier(BLUE_IDS[i], 80)
  {}

  lemma BlueIdsDiffer(i: nat, j: nat)
    requires i < j < 6
    ensures BLUE_IDS[i] != BLUE_IDS[j]
  {
    var a, b := BLUE_IDS[i], BLUE_IDS[j];
    assert |a| != |b| || a[5] != b[5] || a[11] != b[11];
  }

  lemma NoEntriesHarmless(q: PublicQuestion)
    requires q.extra == []
    ensures !ContainsAnswerKey(QuestionTree(q), 0)
  {
    var options := OptionTrees(q.options);
    DictHarmless([Entry("id", Leaf), Entry("label", Leaf)], 2);
    assert !ContainsAnswerKey(options, 1);
    var all := [Entry("id", Leaf), Entry("type", Leaf), Entry("prompt", Leaf), Entry("points", Leaf), Entry("options", options)];
    assert QuestionTree(q) == DictTree(all + q.extra) && all + q.extra == all;
    DictHarmless(all, 0);
  }

  lemma BluePublicOk(w: Wording, i: nat)
    requires WordingFits(w, BLUE) && i < 6
    ensures PublicOk(BluePublic(w, i), BLUE_QUESTIONS)
  {
    BlueIdsOk(i);
    NoEntriesHarmless(BluePublic(w, i));
  }

  lemma BlueQuestionsOk(w: Wording, p: BlueProfile, request: ContentRequest)
    requires WordingFits(w, BLUE) && request.team == BLUE && Requested(request) == BLUE_QUESTIONS
    ensures QuestionsOk(BluePairs(w, p).public, request)
  {
    var questions := BluePairs(w, p).public;
    forall i | 0 <= i < |questions| ensures PublicOk(questions[i], BLUE_QUESTIONS) { BluePublicOk(w, i); }
    forall i, j | 0 <= i < j < |questions| ensures PublicIds(questions)[i] != PublicIds(questions)[j] { BlueIdsDiffer(i, j); }
    BlueKinds(w, p);
  }

  lemma BlueKinds(w: Wording, p: BlueProfile)
    requires WordingFits(w, BLUE)
    ensures KindsOf(BluePairs(w, p).public) == BLUE_QUESTIONS
    ensures CountOf(BluePairs(w, p).public, ElkSearch) == 3 && CountOf(BluePairs(w, p).public, MitreAttack) == 3
  {
    var q := BluePairs(w, p).public;
    assert q[0] in q && q[3] in q;
    assert KindsOf(q) == BLUE_QUESTIONS;
    assert q == [q[0], q[1], q[2], q[3], q[4], q[5]];
    CountSix(q[0], q[1], q[2], q[3], q[4], q[5]);
  }

  lemma CountSix(a: PublicQuestion, b: PublicQuestion, c: PublicQuestion, d: PublicQuestion, e: PublicQuestion, f: PublicQuestion)
    requires a.kind == b.kind == c.kind == ElkSearch && d.kind == e.kind == f.kind == MitreAttack
    ensures CountOf([a, b, c, d, e, f], ElkSearch) == 3 && CountOf([a, b, c, d, e, f], MitreAttack) == 3
  {
    CountAppend([], a);
    CountAppend([a], b);
    CountAppend([a, b], c);
    CountAppend([a, b, c], d);
    CountAppend([a, b, c, d], e);
    CountAppend([a, b, c, d, e], f);
    assert [a, b, c, d, e] + [f] == [a, b, c, d, e, f];
    assert [a, b, c, d] + [e] == [a, b, c, d, e];
    assert [a, b, c] + [d] == [a, b, c, d];
    assert [a, b] + [c] == [a, b, c];
    assert [a] + [b] == [a, b];
    assert [] + [a] == [a];
  }

  lemma CountAppend(s: seq<PublicQuestion>, q: PublicQuestion)
    ensures forall k: QuestionType :: CountOf(s + [q], k) == CountOf(s, k) + if q.kind == k then 1 else 0
  {
    assert (s + [q])[..|s|] == s;
  }

  lemma BlueKeyOk(w: Wording, p: BlueProfile, i: nat)
    requires WordingFits(w, BLUE) && i < 6
    ensures var events := SignalEvents(p, w);
            KeyOk(BluePublic(w, i).kind, BlueKey(events, BlueChain(p), i), [], Members(EventIds(events)), Members(BlueChain(p)))
  {
    var events, chain := SignalEvents(p, w), BlueChain(p);
    var ids := EventIds(events);
    if i < 3 {
      ShownTexts(ids[..2], Members(ids));
      ShownTexts(ids[1..3], Members(ids));
      ShownTexts(ids[3..6], Members(ids));
    } else {
      assert chain[0] in chain && chain[1] in chain;
      ShownTexts([chain[0]], Members(chain));
      ShownTexts([chain[1]], Members(chain));
      ShownTexts(chain[..3], Members(chain));
    }
  }

  lemma BlueGradingOk(w: Wording, p: BlueProfile)
    requires WordingFits(w, BLUE)
    ensures var pairs := BluePairs(w, p);
            GradingOk(pairs.hidden, pairs.public, Members(EventIds(SignalEvents(p, w))), Members(BlueChain(p)))
  {
    var pairs := BluePairs(w, p);
    var telemetry, techniques := Members(EventIds(SignalEvents(p, w))), Members(BlueChain(p));
    forall i | 0 <= i < 6
      ensures Identifier(pairs.hidden[i].id, 80) && PairOk(pairs.hidden[i], pairs.public[i], telemetry, techniques)
    {
      BlueIdsOk(i);
      BlueKeyOk(w, p, i);
    }
    PlacewiseGrading(pairs.hidden, pairs.public, telemetry, techniques);
  }

  // ----- Red questions -----

  lemma {:induction false} DecimalDigits(n: nat)
    ensures Decimal(n) != ""
    ensures forall i :: 0 <= i < |Decimal(n)| ==> AsciiDigit(Decimal(n)[i])
    ensures n < 100 ==> |Decimal(n)| <= 2
  {
    if n >= 10 { DecimalDigits(n / 10); }
  }

  lemma {:induction false} DecimalInjective(m: nat, n: nat)
    requires Decimal(m) == Decimal(n)
    ensures m == n
    decreases m
  {
    DecimalDigits(m / 10);
    DecimalDigits(n / 10);
    if m >= 10 && n >= 10 {
      var a, b := Decimal(m), Decimal(n);
      assert a[..|a| - 1] == Decimal(m / 10) && b[..|b| - 1] == Decimal(n / 10);
      assert a[|a| - 1] == b[|b| - 1];
      DecimalInjective(m / 10, n / 10);
    }
  }

  lemma NumberedOk(prefix: string, i: nat)
    requires Identifier(prefix, 60) && i < 99
    ensures Identifier(prefix + Decimal(i + 1), 80)
  {
    DecimalDigits(i + 1);
  }

  lemma RedIdsOk(i: nat)
    requires i < 20
    ensures Identifier(RedId(i), 80) && |RedId(i)| <= 7
  {
    assert Identifier("red-q", 60);
    NumberedOk("red-q", i);
    DecimalDigits(i + 1);
  }

  lemma RedIdsDiffer(i: nat, j: nat)
    requires i != j
    ensures RedId(i) != RedId(j)
  {
    if RedId(i) == RedId(j) {
      assert RedId(i)[5..] == Decimal(i + 1) && RedId(j)[5..] == Decimal(j + 1);
      DecimalInjective(i + 1, j + 1);
    }
  }

  lemma OptionsFit(ids: seq<string>, w: Wording, from: nat)
    requires WordingFits(w, RED) && |ids| == 4 && from + 4 <= 8
    requires forall i :: 0 <= i < 4 ==> Identifier(ids[i], 80)
    requires Distinct(ids)
    ensures var options := seq(4, i requires 0 <= i < 4 => ChoiceOption(ids[i], w.labels[from + i]));
            OptionsOk(options) && OptionIds(options) == ids
  {
    var options := seq(4, i requires 0 <= i < 4 => ChoiceOption(ids[i], w.labels[from + i]));
    assert OptionIds(options) == ids;
  }

  lemma SafeOptionsPlain()
    ensures Distinct(SAFE_OPTIONS) && forall i :: 0 <= i < 4 ==> Identifier(SAFE_OPTIONS[i], 80)
  {
    forall i | 0 <= i < 4 ensures Identifier(SAFE_OPTIONS[i], 80) {}
    assert |SAFE_OPTIONS[0]| == 16 && |SAFE_OPTIONS[1]| == 13 && |SAFE_OPTIONS[2]| == 13 && |SAFE_OPTIONS[3]| == 16;
    assert SAFE_OPTIONS[0][0] == 's' && SAFE_OPTIONS[3][0] == 'd' && SAFE_OPTIONS[1][0] == 'd' && SAFE_OPTIONS[2][0] == 'e';
  }

  lemma EvidenceOptionsPlain()
    ensures Distinct(EVIDENCE_OPTIONS) && forall i :: 0 <= i < 4 ==> Identifier(EVIDENCE_OPTIONS[i], 80)
  {
    forall i | 0 <= i < 4 ensures Identifier(EVIDENCE_OPTIONS[i], 80) {}
    assert EVIDENCE_OPTIONS[0][0] == 'p' && EVIDENCE_OPTIONS[1][0] == 'a' && EVIDENCE_OPTIONS[2][0] == 'n' && EVIDENCE_OPTIONS[3][0] == 'm';
  }

  lemma RedOptionsOk(w: Wording, kind: QuestionType)
    requires WordingFits(w, RED) && Choice(kind)
    ensures OptionsOk(RedOptions(kind, w))
    ensures OptionIds(RedOptions(kind, w)) == if kind == SingleChoice then SAFE_OPTIONS else EVIDENCE_OPTIONS
  {
    if kind == SingleChoice {
      SafeOptionsPlain();
      OptionsFit(SAFE_OPTIONS, w, 0);
      assert RedOptions(kind, w) == seq(4, i requires 0 <= i < 4 => ChoiceOption(SAFE_OPTIONS[i], w.labels[0 + i]));
    } else {
      EvidenceOptionsPlain();
      OptionsFit(EVIDENCE_OPTIONS, w, 4);
    }
  }

  lemma RedPublicOk(w: Wording, kind: QuestionType, i: nat, requested: set<QuestionType>)
    requires WordingFits(w, RED) && i < 20 && kind in requested && kind in RED_QUESTIONS
    ensures PublicOk(RedPublic(w, kind, i), requested)
  {
    RedIdsOk(i);
    NoEntriesHarmless(RedPublic(w, kind, i));
    if Choice(kind) { RedOptionsOk(w, kind); }
  }

  lemma PaddedKinds(types: seq<QuestionType>)
    requires types != []
    ensures KindSet(Padded(types)) == KindSet(types)
  {
    forall k ensures k in KindSet(Padded(types)) <==> k in KindSet(types) {
      if k in types {
        var i :| 0 <= i < |types| && types[i] == k;
        assert Padded(types)[i] == k;
      }
    }
  }

  lemma {:induction false} DistinctKindCount(types: seq<QuestionType>)
    requires Distinct(types)
    ensures |KindSet(types)| == |types|
  {
    if types != [] {
      var last := |types| - 1;
      assert types == types[..last] + [types[last]];
      assert KindSet(types) == KindSet(types[..last]) + {types[last]};
      DistinctKindCount(types[..last]);
    }
  }

  lemma FewRedKinds(types: seq<QuestionType>)
    requires Distinct(types) && KindSet(types) <= RED_QUESTIONS
    ensures |types| <= 4
  {
    DistinctKindCount(types);
    assert |RED_QUESTIONS - KindSet(types)| == |RED_QUESTIONS| - |KindSet(types)|;
  }

  lemma RedKindsOf(w: Wording, kinds: seq<QuestionType>, chain: seq<string>)
    requires WordingFits(w, RED) && |chain| >= 1
    ensures KindsOf(RedPairs(w, kinds, chain).public) == KindSet(kinds)
  {
    var questions := RedPairs(w, kinds, chain).public;
    forall k ensures k in KindsOf(questions) <==> k in KindSet(kinds) {
      if k in kinds {
        var i :| 0 <= i < |kinds| && kinds[i] == k;
        assert questions[i] in questions;
      }
      if k in KindsOf(questions) {
        var q :| q in questions && q.kind == k;
        var i :| 0 <= i < |questions| && questions[i] == q;
        assert kinds[i] == k;
      }
    }
  }

  lemma RedQuestionsOk(w: Wording, types: seq<QuestionType>, chain: seq<string>, request: ContentRequest)
    requires WordingFits(w, RED) && request.team == RED && |chain| >= 1
    requires types != [] && Distinct(types) && KindSet(types) <= RED_QUESTIONS && Requested(request) == KindSet(types)
    ensures QuestionsOk(RedPairs(w, Padded(types), chain).public, request)
  {
    var kinds := Padded(types);
    var questions := RedPairs(w, kinds, chain).public;
    FewRedKinds(types);
    DistinctKindCount(types);
    PaddedKinds(types);
    RedKindsOf(w, kinds, chain);
    RedPublicsOk(w, kinds, chain, Requested(request));
    RedIdsDistinct(w, kinds, chain);
  }

  lemma RedPublicsOk(w: Wording, kinds: seq<QuestionType>, chain: seq<string>, requested: set<QuestionType>)
    requires WordingFits(w, RED) && |chain| >= 1 && |kinds| <= 20 && KindSet(kinds) <= requested && KindSet(kinds) <= RED_QUESTIONS
    ensures forall i :: 0 <= i < |kinds| ==> PublicOk(RedPairs(w, kinds, chain).public[i], requested)
  {
    forall i | 0 <= i < |kinds| ensures PublicOk(RedPairs(w, kinds, chain).public[i], requested) {
      assert kinds[i] in KindSet(kinds);
      RedPublicOk(w, kinds[i], i, requested);
    }
  }

  lemma RedIdsDistinct(w: Wording, kinds: seq<QuestionType>, chain: seq<string>)
    requires WordingFits(w, RED) && |chain| >= 1
    ensures Distinct(PublicIds(RedPairs(w, kinds, chain).public))
  {
    var questions := RedPairs(w, kinds, chain).public;
    forall i, j | 0 <= i < j < |questions| ensures PublicIds(questions)[i] != PublicIds(questions)[j] { RedIdsDiffer(i, j); }
  }

  lemma RedKeyOk(w: Wording, kind: QuestionType, chain: seq<string>, i: nat)
    requires WordingFits(w, RED) && |chain| >= 1 && i < 20 && kind in RED_QUESTIONS
    ensures KeyOk(kind, RedKey(kind, chain, i), RedOptions(kind, w), {}, Members(chain))
  {
    match kind
    case SingleChoice =>
      RedOptionsOk(w, kind);
      assert SAFE_OPTIONS[0] in SAFE_OPTIONS;
      ShownTexts(["safe-enumeration"], Members(SAFE_OPTIONS));
    case MultipleChoice =>
      RedOptionsOk(w, kind);
      var chosen := ["process-event", "auth-event", "network-event"];
      assert EVIDENCE_OPTIONS[..3] == chosen;
      ShownTexts(chosen, Members(EVIDENCE_OPTIONS));
      EvidenceOptionsPlain();
      FourMembers(EVIDENCE_OPTIONS);
    case MitreAttack =>
      assert chain[0] in chain;
      ShownTexts([chain[0]], Members(chain));
    case FreeText =>
      RedIdsOk(i);
      assert forall k :: 0 <= k < |"-analysis-v2"| ==> IdentifierChar("-analysis-v2"[k]);
  }

  lemma FourMembers(ids: seq<string>)
    requires |ids| == 4 && Distinct(ids)
    ensures |Members(ids)| == 4
  {
    assert Members(ids) == {ids[0], ids[1], ids[2], ids[3]};
  }

  lemma RedGradingOk(w: Wording, kinds: seq<QuestionType>, chain: seq<string>)
    requires WordingFits(w, RED) && |chain| >= 1 && |kinds| <= 20 && KindSet(kinds) <= RED_QUESTIONS
    ensures var pairs := RedPairs(w, kinds, chain);
            GradingOk(pairs.hidden, pairs.public, {}, Members(chain))
  {
    var pairs := RedPairs(w, kinds, chain);
    forall i | 0 <= i < |kinds|
      ensures Identifier(pairs.hidden[i].id, 80) && PairOk(pairs.hidden[i], pairs.public[i], {}, Members(chain))
    {
      assert kinds[i] in KindSet(kinds);
      RedIdsOk(i);
      RedKeyOk(w, kinds[i], chain, i);
    }
    PlacewiseGrading(pairs.hidden, pairs.public, {}, Members(chain));
  }
}
