/** What the generated drafts ask, and for how many points. */
module DraftAsks {
  import opened Wrappers
  import opened Sorting
  import opened Questions
  import opened ContentContract
  import opened DraftGenerator
  import opened DraftContract

  function PointsUpTo(questions: seq<Question>, n: nat): int
    requires n <= |questions|
  {
    if n == 0 then 0 else PointsUpTo(questions, n - 1) + PointsValue(questions[n - 1].points)
  }

  predicate Texted(values: seq<Value>, texts: seq<string>) {
    |values| == |texts| && forall i :: 0 <= i < |texts| ==> values[i] == Str(texts[i])
  }

  ghost predicate Searches(q: Question, ids: seq<string>) { q.kind == ElkSearch && Texted(q.key.expectedEvidenceIds, ids) }

  ghost predicate Maps(q: Question, techniques: seq<string>) { q.kind == MitreAttack && Texted(q.key.techniqueIds, techniques) }

  lemma BlueQuestionIs(w: Wording, p: BlueProfile, i: nat)
    requires |w.prompts| == 6 && |w.eventSizes| == 6 && i < 6
    ensures BluePairs(w, p).hidden[i] == Question(BLUE_IDS[i], if i < 3 then ElkSearch else MitreAttack, Int(BLUE_POINTS[i]),
                                                  BlueKey(SignalEvents(p, w), BlueChain(p), i))
  {}

  /** A blue draft asks for its six signals in the order of the attack, entry, execution
      and impact, then for the techniques of entry and execution and for the first three,
      for 100 points in all. */
  lemma BlueAsks(w: Wording, p: BlueProfile)
    requires |w.prompts| == 6 && |w.eventSizes| == 6
    ensures var hidden, ids, chain := BluePairs(w, p).hidden, EventIds(SignalEvents(p, w)), BlueChain(p);
            && |hidden| == 6 && |ids| == 6
            && Searches(hidden[0], [ids[0], ids[1]]) && Searches(hidden[1], [ids[1], ids[2]]) && Searches(hidden[2], [ids[3], ids[4], ids[5]])
            && Maps(hidden[3], [chain[0]]) && Maps(hidden[4], [chain[1]]) && Maps(hidden[5], [chain[0], chain[1], chain[2]])
            && PointsUpTo(hidden, 6) == 100
  {
    var ids, chain := EventIds(SignalEvents(p, w)), BlueChain(p);
    forall i | 0 <= i < 6
      ensures BluePairs(w, p).hidden[i] == Question(BLUE_IDS[i], if i < 3 then ElkSearch else MitreAttack, Int(BLUE_POINTS[i]),
                                                    BlueKey(SignalEvents(p, w), chain, i))
    {
      BlueQuestionIs(w, p, i);
    }
    BlueKeysAre(SignalEvents(p, w), chain);
    BluePointsTotal(BluePairs(w, p).hidden);
  }

  lemma BlueKeysAre(events: seq<Event>, chain: seq<string>)
    requires |events| == 6 && |chain| >= 3
    ensures var ids := EventIds(events);
            && Texted(BlueKey(events, chain, 0).expectedEvidenceIds, [ids[0], ids[1]])
            && Texted(BlueKey(events, chain, 1).expectedEvidenceIds, [ids[1], ids[2]])
            && Texted(BlueKey(events, chain, 2).expectedEvidenceIds, [ids[3], ids[4], ids[5]])
            && Texted(BlueKey(events, chain, 3).techniqueIds, [chain[0]]) && Texted(BlueKey(events, chain, 4).techniqueIds, [chain[1]])
            && Texted(BlueKey(events, chain, 5).techniqueIds, [chain[0], chain[1], chain[2]])
  {
    var ids := EventIds(events);
    assert ids[..2] == [ids[0], ids[1]] && ids[1..3] == [ids[1], ids[2]] && ids[3..6] == [ids[3], ids[4], ids[5]];
    assert chain[..3] == [chain[0], chain[1], chain[2]];
  }

  lemma BluePointsTotal(hidden: seq<Question>)
    requires |hidden| == 6 && forall i :: 0 <= i < 6 ==> hidden[i].points == Int(BLUE_POINTS[i])
    ensures PointsUpTo(hidden, 6) == 100
  {
    assert PointsUpTo(hidden, 0) == 0;
    assert PointsUpTo(hidden, 1) == 20;
    assert PointsUpTo(hidden, 2) == 40;
    assert PointsUpTo(hidden, 3) == 60;
    assert PointsUpTo(hidden, 4) == 75;
    assert PointsUpTo(hidden, 5) == 90;
  }

  /** A red draft takes safe enumeration for the right choice, every event but the
      marketing cookie for evidence, the chain's first technique for the mapping, and a
      rubric of its own for each text; mappings are worth 20 points, everything else 30. */
  lemma RedAsks(w: Wording, kinds: seq<QuestionType>, chain: seq<string>, i: nat)
    requires |w.labels| == 8 && |w.prompts| == 4 && |chain| >= 1 && i < |kinds|
    ensures var q := RedPairs(w, kinds, chain).hidden[i];
            && q.id == "red-q" + Decimal(i + 1) && q.kind == kinds[i]
            && (q.kind == SingleChoice ==> q.key.optionIds.Some? && Texted(q.key.optionIds.value, ["safe-enumeration"]))
            && (q.kind == MultipleChoice ==>
                  q.key.optionIds.Some? && Texted(q.key.optionIds.value, ["process-event", "auth-event", "network-event"]))
            && (q.kind == MitreAttack ==> Maps(q, [chain[0]]))
            && (q.kind == FreeText ==> q.key.rubricId == q.id + "-analysis-v2")
            && q.points == Int(if q.kind == MitreAttack then 20 else 30)
  {
    assert RedPairs(w, kinds, chain).hidden[i] == HiddenOf(RedPublic(w, kinds[i], i), RedKey(kinds[i], chain, i));
  }

  /** The options of a red draft's choices are the key's and one that is wrong. */
  lemma RedOffers(w: Wording, kinds: seq<QuestionType>, chain: seq<string>, i: nat)
    requires |w.labels| == 8 && |w.prompts| == 4 && |chain| >= 1 && i < |kinds|
    ensures var options := RedPairs(w, kinds, chain).public[i].options;
            && (kinds[i] == SingleChoice ==>
                  OptionIds(options) == ["safe-enumeration", "disable-audit", "external-scan", "destructive-test"])
            && (kinds[i] == MultipleChoice ==>
                  OptionIds(options) == ["process-event", "auth-event", "network-event", "marketing-cookie"])
            && (kinds[i] != SingleChoice && kinds[i] != MultipleChoice ==> options == [])
  {
    var options := RedPairs(w, kinds, chain).public[i].options;
    assert options == RedOptions(kinds[i], w);
  }

  /** The draft for a team asks what that team's questions are. */
  lemma DraftAsksThese(sha256: string -> string, request: GenerateRequest, profiles: Profiles, w: Wording)
    requires WordingShape(w, NormalTeam(request)) && GenerateDraft(sha256, request, profiles, w).Ok?
    ensures var p := GenerateDraft(sha256, request, profiles, w).value;
            && (NormalTeam(request) == BLUE ==>
                  p.grading == BluePairs(w, profiles.blue).hidden && p.spec.telemetry == Some(SignalEvents(profiles.blue, w))
                  && p.scenario.chain == BlueChain(profiles.blue))
            && (NormalTeam(request) == RED ==>
                  p.spec.telemetry == None && p.scenario.chain == RedChain(profiles.red)
                  && exists types :: SelectTypes(RED, request.questionTypes) == Ok(types) && types != []
                                     && p.grading == RedPairs(w, Padded(types), RedChain(profiles.red)).hidden)
  {
    DraftIs(sha256, request, profiles, w);
    assert SelectTypes(NormalTeam(request), request.questionTypes).Ok?;
    var types := SelectTypes(NormalTeam(request), request.questionTypes).value;
  }

  /** The six signals of a blue draft, in the order of the attack. */
  lemma DraftSignals(w: Wording, p: BlueProfile)
    requires |w.eventSizes| == 6
    ensures EventIds(SignalEvents(p, w))
         == if p == PowershellExfiltration
            then ["signal-web-rce-probe", "signal-webshell-powershell", "signal-powershell-recon",
                  "signal-sensitive-file-read", "signal-archive-created", "signal-outbound-exfiltration"]
            else ["signal-initial-anomaly", "signal-execution-start", "signal-followup-activity",
                  "signal-impact-stage-one", "signal-impact-stage-two", "signal-impact-stage-three"]
    ensures forall i :: 0 <= i < 6 ==> SignalEvents(p, w)[i].size == w.eventSizes[i]
  {}

  /** Each kind of red question has a prompt of its own, and each option its own label. */
  lemma RedWords(w: Wording, kinds: seq<QuestionType>, chain: seq<string>, i: nat)
    requires |w.labels| == 8 && |w.prompts| == 4 && |chain| >= 1 && i < |kinds|
    ensures var q := RedPairs(w, kinds, chain).public[i];
            && (kinds[i] == SingleChoice ==> q.prompt == w.prompts[0]) && (kinds[i] == MultipleChoice ==> q.prompt == w.prompts[1])
            && (kinds[i] == FreeText ==> q.prompt == w.prompts[2]) && (kinds[i] == MitreAttack ==> q.prompt == w.prompts[3])
            && forall k :: 0 <= k < |q.options| ==>
                 q.options[k].text == w.labels[if kinds[i] == SingleChoice then k else 4 + k]
  {
    assert RedPairs(w, kinds, chain).public[i] == RedPublic(w, kinds[i], i);
  }

  /** A draft is refused for a title under three or a prompt under ten trimmed characters,
      for a team that is neither when trimmed and in lower case, and for kinds of questions
      that are not the team's. */
  lemma DraftRefusedIff(sha256: string -> string, request: GenerateRequest, profiles: Profiles, w: Wording)
    requires WordingShape(w, NormalTeam(request))
    ensures var draft, team, raw := GenerateDraft(sha256, request, profiles, w), Lower(Strip(request.team)), request.questionTypes;
            && (draft == Err(TitleTooShort) <==> |Strip(request.title)| < 3)
            && (draft == Err(PromptTooShort) <==> |Strip(request.title)| >= 3 && |Strip(request.prompt)| < 10)
            && (draft.Ok? <==>
                  && |Strip(request.title)| >= 3 && |Strip(request.prompt)| >= 10
                  && ((team == "blue" && forall kind :: kind in raw <==> kind in {ElkSearch, MitreAttack})
                      || (team == "red" && raw != [] && forall kind :: kind in raw ==> kind in {SingleChoice, MultipleChoice, FreeText, MitreAttack})))
  {
    KindsSelected(NormalTeam(request), request.questionTypes);
  }

  lemma KindsSelected(team: string, raw: seq<QuestionType>)
    ensures SelectTypes(team, raw).Ok? <==>
              || (team == "blue" && forall kind :: kind in raw <==> kind in {ElkSearch, MitreAttack})
              || (team == "red" && raw != [] && forall kind :: kind in raw ==> kind in {SingleChoice, MultipleChoice, FreeText, MitreAttack})
    ensures SelectTypes(team, raw).Ok? ==> forall kind :: kind in SelectTypes(team, raw).value <==> kind in raw
  {
    var kinds := KindSet(Deduplicated(raw));
    assert forall kind :: kind in kinds <==> kind in raw;
    assert raw != [] ==> raw[0] in Deduplicated(raw);
    assert Deduplicated(raw) != [] ==> Deduplicated(raw)[0] in raw;
    assert BLUE_QUESTIONS == {ElkSearch, MitreAttack} && RED_QUESTIONS == {SingleChoice, MultipleChoice, FreeText, MitreAttack};
  }

  predicate NamesCve(raw: string, cve: string) { Upper(raw) == cve && |cve| >= 4 && cve[..4] == "CVE-" }

  ghost predicate Requests(raw: seq<string>, cve: string) { exists i :: 0 <= i < |raw| && NamesCve(raw[i], cve) }

  /** The draft lists, in capitals, the identifiers of the request that start like a CVE,
      and no other. */
  lemma {:induction false} CvesListed(raw: seq<string>, cve: string)
    ensures cve in Cves(raw) <==> Requests(raw, cve)
  {
    if raw != [] {
      var last := |raw| - 1;
      CvesListed(raw[..last], cve);
      assert NamesCve(raw[last], cve) <==> Upper(raw[last]) == cve && StartsWith(cve, "CVE-");
      if i :| 0 <= i < |raw| && NamesCve(raw[i], cve) {
        if i < last { assert NamesCve(raw[..last][i], cve); }
      }
      if i :| 0 <= i < last && NamesCve(raw[..last][i], cve) { assert NamesCve(raw[i], cve); }
    }
  }

  // ----- The opening lesson -----

  /** `part` occurs in `s`. */
  ghost predicate Contains(s: string, part: string) { exists i, j :: 0 <= i <= j <= |s| && s[i..j] == part }

  lemma ContainsMiddle(before: string, part: string, after: string)
    ensures Contains(before + part + after, part)
  {
    var s := before + part + after;
    assert s[|before|..|before| + |part|] == part;
  }

  lemma ContainsWithin(s: string, part: string, before: string, after: string)
    requires Contains(s, part)
    ensures Contains(before + s + after, part)
  {
    var i, j :| 0 <= i <= j <= |s| && s[i..j] == part;
    var whole := before + s + after;
    assert whole[|before| + i..|before| + j] == part;
  }

  lemma {:induction false} JoinContains(items: seq<string>, separator: string, k: nat)
    requires k < |items|
    ensures Contains(Join(items, separator), items[k])
  {
    var last := |items| - 1;
    if last == 0 {
      assert Join(items, separator)[0..|items[0]|] == items[0];
    } else if k == last {
      ContainsMiddle(Join(items[..last], separator) + separator, items[last], "");
      assert Join(items[..last], separator) + separator + items[last] + "" == Join(items, separator);
    } else {
      JoinContains(items[..last], separator, k);
      ContainsWithin(Join(items[..last], separator), items[k], "", separator + items[last]);
      assert "" + Join(items[..last], separator) + (separator + items[last]) == Join(items, separator);
    }
  }

  lemma NoteContains(w: Wording, cves: seq<string>, k: nat)
    requires k < |cves|
    ensures Contains(CveNote(w, cves), cves[k])
  {
    JoinContains(cves, ", ", k);
    ContainsWithin(Join(cves, ", "), cves[k], "\n\n" + w.cveLead, w.cveTail);
  }

  /** The opening lesson says the title, the prompt, the summary and every CVE asked for. */
  lemma OpeningSays(team: string, title: string, prompt: string, w: Wording, cves: seq<string>)
    ensures var body := OpeningBody(team, title, prompt, w, cves);
            && Contains(body, title) && Contains(body, prompt) && Contains(body, w.summary) && Contains(body, w.closing)
            && forall k :: 0 <= k < |cves| ==> Contains(body, cves[k])
  {
    var body, note := OpeningBody(team, title, prompt, w, cves), CveNote(w, cves);
    if team == BLUE {
      Sequence("## ", title, "\n\n", prompt, "\n\n", w.summary, note, "\n\n", w.closing);
    } else {
      Sequence("## ", title, "\n\n", prompt, note, "\n\n", w.summary, "\n\n", w.closing);
    }
    assert Says(body, title, prompt, w.summary, note, w.closing);
    forall k | 0 <= k < |cves| ensures Contains(body, cves[k]) {
      NoteContains(w, cves, k);
      ContainsTransitive(body, note, cves[k]);
    }
  }

  lemma ContainsTransitive(s: string, part: string, inner: string)
    requires Contains(s, part) && Contains(part, inner)
    ensures Contains(s, inner)
  {
    var i, j :| 0 <= i <= j <= |s| && s[i..j] == part;
    var a, b :| 0 <= a <= b <= |part| && part[a..b] == inner;
    assert |s[i..j]| == j - i;
    forall k | 0 <= k < b - a ensures s[i + a..i + b][k] == inner[k] {
      assert s[i..j][a + k] == s[i + a + k] && part[a..b][k] == part[a + k];
    }
    assert s[i + a..i + b] == inner;
  }

  ghost predicate Says(body: string, title: string, prompt: string, summary: string, note: string, closing: string) {
    Contains(body, title) && Contains(body, prompt) && Contains(body, summary) && Contains(body, note) && Contains(body, closing)
  }

  lemma Grow(a: string, x: string)
    ensures Contains(a + x, x)
    ensures forall part :: Contains(a, part) ==> Contains(a + x, part)
  {
    assert (a + x)[|a|..|a| + |x|] == x;
    forall part | Contains(a, part) ensures Contains(a + x, part) {
      var i, j :| 0 <= i <= j <= |a| && a[i..j] == part;
      assert (a + x)[i..j] == part;
    }
  }

  lemma Sequence(lead: string, title: string, gap: string, prompt: string, a: string, b: string, c: string, d: string, e: string)
    ensures var whole := lead + title + gap + prompt + a + b + c + d + e;
            && Contains(whole, title) && Contains(whole, prompt)
            && Contains(whole, a) && Contains(whole, b) && Contains(whole, c) && Contains(whole, e)
  {
    Grow(lead, title);
    Grow(lead + title, gap);
    Grow(lead + title + gap, prompt);
    Grow(lead + title + gap + prompt, a);
    Grow(lead + title + gap + prompt + a, b);
    Grow(lead + title + gap + prompt + a + b, c);
    Grow(lead + title + gap + prompt + a + b + c, d);
    Grow(lead + title + gap + prompt + a + b + c + d, e);
  }
}
