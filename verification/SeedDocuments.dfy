/** What the expanded corpus keeps of the reviewed telemetry: the documents of the seeds,
    their times, and the marks every event gets. */
module SeedDocuments {
  import opened Wrappers
  import opened Sorting
  import opened Questions
  import opened ContentContract
  import opened ContractChecker
  import opened BlueTelemetry
  import opened TelemetryCorpus

  // ----- Signals by identifier -----

  function Find(signals: Corpus, id: string): Option<TelemetryEvent> {
    if signals == [] then None else if signals[0].id == id then Some(signals[0]) else Find(signals[1..], id)
  }

  lemma {:induction false} FindHolds(signals: Corpus, id: string)
    ensures Find(signals, id).Some? <==> id in Members(IdsOf(signals))
    ensures Find(signals, id).Some? ==> Find(signals, id).value in signals && Find(signals, id).value.id == id
  {
    if signals == [] {
      assert IdsOf(signals) == [];
    } else {
      FindHolds(signals[1..], id);
      assert IdsOf(signals) == [signals[0].id] + IdsOf(signals[1..]);
      MembersCons(signals[0].id, IdsOf(signals[1..]));
    }
  }

  /** The signal of a new identifier is its seed's; a known one keeps its time and gets
      the seed's document laid over its own. */
  function Laid(known: Option<TelemetryEvent>, s: Seed, time: Time): TelemetryEvent {
    match known
    case None => TelemetryEvent(s.id, time, Normalized(s.id, s.document))
    case Some(e) => TelemetryEvent(s.id, e.time, Normalized(s.id, DeepMerge(e.document, s.document)))
  }

  lemma {:induction false} FindAfterSet(signals: Corpus, s: Seed, time: Time, id: string)
    ensures Find(SetSignal(signals, s, time), id) == if id == s.id then Some(Laid(Find(signals, s.id), s, time)) else Find(signals, id)
  {
    if signals != [] && signals[0].id != s.id { FindAfterSet(signals[1..], s, time, id); }
  }

  /** No seed after the `i`-th has its identifier. */
  predicate LastOfItsId(seeds: seq<Seed>, i: nat)
    requires i < |seeds|
  {
    forall j :: i < j < |seeds| ==> seeds[j].id != seeds[i].id
  }

  lemma FindLast(plan: Plan, seeds: seq<Seed>, id: string)
    requires seeds != []
    ensures var last := |seeds| - 1;
            var earlier := SignalsOf(plan, seeds[..last]);
            Find(SignalsOf(plan, seeds), id)
            == if id == seeds[last].id then Some(Laid(Find(earlier, id), seeds[last], plan.anchor - SeedOffset(last))) else Find(earlier, id)
  {
    var last := |seeds| - 1;
    FindAfterSet(SignalsOf(plan, seeds[..last]), seeds[last], plan.anchor - SeedOffset(last), id);
  }

  lemma {:induction false} FindSeed(plan: Plan, seeds: seq<Seed>, i: nat)
    requires i < |seeds| && LastOfItsId(seeds, i)
    ensures Find(SignalsOf(plan, seeds), seeds[i].id)
         == Some(Laid(Find(SignalsOf(plan, seeds[..i]), seeds[i].id), seeds[i], plan.anchor - SeedOffset(i)))
    decreases |seeds|
  {
    FindLast(plan, seeds, seeds[i].id);
    if i < |seeds| - 1 {
      var shorter := seeds[..|seeds| - 1];
      assert shorter[..i] == seeds[..i] && shorter[i] == seeds[i];
      FindSeed(plan, shorter, i);
    }
  }

  /** Neither the profile nor an earlier seed uses the identifier. */
  predicate FirstOfItsId(plan: Plan, seeds: seq<Seed>, i: nat)
    requires i < |seeds|
  {
    seeds[i].id !in BaseIds(plan) && forall j :: 0 <= j < i ==> seeds[j].id != seeds[i].id
  }

  lemma NewIdentifier(plan: Plan, seeds: seq<Seed>, i: nat)
    requires i < |seeds| && FirstOfItsId(plan, seeds, i)
    ensures Find(SignalsOf(plan, seeds[..i]), seeds[i].id) == None
  {
    var id := seeds[i].id;
    SignalsAre(plan, seeds[..i]);
    FindHolds(SignalsOf(plan, seeds[..i]), id);
    assert id !in Members(BaseIds(plan));
    forall j | 0 <= j < |SeedIds(seeds[..i])| ensures SeedIds(seeds[..i])[j] != id { assert seeds[j].id != id; }
  }

  // ----- Documents -----

  predicate Inner(path: seq<string>) { path != [] && path[0] != "event" && path[0] != "zerotop" }

  predicate EventMember(path: seq<string>) { |path| >= 2 && path[0] == "event" && path[1] != "id" }

  lemma AtPair(d: Doc, a: string, b: string)
    ensures At(d, [a, b]) == if d.Record? && a in d.fields && d.fields[a].Record? && b in d.fields[a].fields
                             then Some(d.fields[a].fields[b]) else None
  {
    if d.Record? && a in d.fields {
      var x := d.fields[a];
      assert [a, b][1..] == [b];
      assert At(d, [a, b]) == At(x, [b]);
      assert [b][1..] == [];
      if x.Record? && b in x.fields { assert At(x, [b]) == At(x.fields[b], []); }
    }
  }

  /** Replacing a member leaves every path through another member alone. */
  lemma AtElsewhere(fields: map<string, Doc>, name: string, value: Doc, path: seq<string>)
    requires path != [] && path[0] != name
    ensures At(Record(fields[name := value]), path) == At(Record(fields), path)
  {}

  lemma AtMember(fields: map<string, Doc>, name: string, inner: map<string, Doc>, path: seq<string>)
    requires |path| >= 2 && path[0] == name
    ensures At(Record(fields[name := Record(inner)]), path) == At(Record(inner), path[1..])
  {}

  /** What lies below a member of a record that is itself a record. */
  lemma AtBelow(d: Doc, path: seq<string>)
    requires |path| >= 2 && At(d, path).Some?
    ensures d.Record? && path[0] in d.fields && path[1] in Sub(d, path[0])
    ensures At(d, path) == At(Record(Sub(d, path[0])), path[1..])
  {
    assert At(d, path) == At(d.fields[path[0]], path[1..]);
    assert path[1..][0] == path[1];
  }

  lemma AtOverlaid(base: map<string, Doc>, own: map<string, Doc>, id: Doc, path: seq<string>)
    requires path != [] && path[0] != "id" && path[0] in own
    ensures At(Record(base + own + map["id" := id]), path) == At(Record(own), path)
  {}

  lemma NormalizedAt(id: string, d: Doc, path: seq<string>)
    requires d.Record?
    ensures Inner(path) ==> At(Normalized(id, d), path) == At(d, path)
    ensures EventMember(path) && At(d, path).Some? ==> At(Normalized(id, d), path) == At(d, path)
  {
    var event := map["kind" := Atom("event")] + Sub(d, EVENT) + map["id" := Atom(id)];
    if Inner(path) { AtElsewhere(d.fields, EVENT, Record(event), path); }
    if EventMember(path) && At(d, path).Some? {
      AtBelow(d, path);
      AtMember(d.fields, EVENT, event, path);
      assert path[1..][0] == path[1];
      AtOverlaid(map["kind" := Atom("event")], Sub(d, EVENT), Atom(id), path[1..]);
    }
  }

  lemma NormalizedMarks(id: string, d: Doc)
    requires d.Record?
    ensures At(Normalized(id, d), ["event", "id"]) == Some(Atom(id))
    ensures At(d, ["event", "kind"]).None? ==> At(Normalized(id, d), ["event", "kind"]) == Some(Atom("event"))
  {
    AtPair(Normalized(id, d), "event", "id");
    AtPair(Normalized(id, d), "event", "kind");
    AtPair(d, "event", "kind");
  }

  lemma StampedAt(e: TelemetryEvent, sequence: nat, anchor: Time, path: seq<string>)
    requires e.document.Record?
    ensures Inner(path) ==> At(Stamped(e, sequence, anchor).document, path) == At(e.document, path)
    ensures EventMember(path) && At(e.document, path).Some? ==> At(Stamped(e, sequence, anchor).document, path) == At(e.document, path)
  {
    var fields := e.document.fields;
    var event := Sub(e.document, EVENT)["id" := Atom(e.id)];
    var zerotop := Sub(e.document, ZEROTOP)["scenario_event_id" := Atom(e.id)]["sequence" := Number(sequence)]
                     ["generated_at" := Number(anchor)]["source" := Atom("scenario_log_generator")];
    assert Stamped(e, sequence, anchor).document == Record(fields[EVENT := Record(event)][ZEROTOP := Record(zerotop)]);
    if Inner(path) {
      AtElsewhere(fields[EVENT := Record(event)], ZEROTOP, Record(zerotop), path);
      AtElsewhere(fields, EVENT, Record(event), path);
    }
    if EventMember(path) && At(e.document, path).Some? {
      AtElsewhere(fields[EVENT := Record(event)], ZEROTOP, Record(zerotop), path);
      AtMember(fields, EVENT, event, path);
      AtBelow(e.document, path);
      assert path[1..][0] == path[1];
      AtElsewhere(Sub(e.document, EVENT), "id", Atom(e.id), path[1..]);
    }
  }

  lemma StampedMarks(e: TelemetryEvent, sequence: nat, anchor: Time)
    ensures var stamped := Stamped(e, sequence, anchor).document;
            && At(stamped, ["event", "id"]) == Some(Atom(e.id))
            && At(stamped, ["zerotop", "scenario_event_id"]) == Some(Atom(e.id))
            && At(stamped, ["zerotop", "sequence"]) == Some(Number(sequence))
            && At(stamped, ["zerotop", "generated_at"]) == Some(Number(anchor))
            && At(stamped, ["zerotop", "source"]) == Some(Atom("scenario_log_generator"))
  {
    var stamped := Stamped(e, sequence, anchor).document;
    AtPair(stamped, "event", "id");
    AtPair(stamped, "zerotop", "scenario_event_id");
    AtPair(stamped, "zerotop", "sequence");
    AtPair(stamped, "zerotop", "generated_at");
    AtPair(stamped, "zerotop", "source");
  }

  // ----- In the corpus -----

  lemma SignalPlaced(plan: Plan, seeds: seq<Seed>, source: Source, collate: (string, string) -> bool, out: Corpus, e: TelemetryEvent)
    returns (place: nat)
    requires Expanded(plan, seeds, source, collate, out) && e in SignalsOf(plan, seeds)
    ensures place < |out| && out[place] == Stamped(e, place, plan.anchor)
  {
    ExpandedIs(plan, seeds, source, collate, out);
    var combined := Combined(plan, seeds, source, PlanClock(plan));
    SortMembers(combined, Before(collate));
    assert e in combined;
    place :| 0 <= place < |out| && Sort(combined, Before(collate))[place] == e;
  }

  /** What the event keeps of the seed's document at a path: everything outside the two
      stamped records, and every member of "event" but its identifier. */
  predicate KeptAt(event: Doc, seed: Doc, path: seq<string>) {
    && (Inner(path) ==> At(event, path) == At(seed, path))
    && (EventMember(path) && At(seed, path).Some? ==> At(event, path) == At(seed, path))
  }

  /** A seed whose identifier nobody else uses is in the corpus with its own document, at
      its own time: up to fourteen minutes before the anchor, 43.2 seconds later for each
      seed, starting over after eight. */
  lemma SeedKept(plan: Plan, seeds: seq<Seed>, source: Source, collate: (string, string) -> bool, out: Corpus, i: nat)
    returns (place: nat)
    requires Expanded(plan, seeds, source, collate, out) && i < |seeds|
    requires FirstOfItsId(plan, seeds, i) && LastOfItsId(seeds, i)
    ensures place < |out| && out[place].id == seeds[i].id
    ensures out[place].time == plan.anchor - 14 * 60 * 1000 + 43200 * (i % 8)
    ensures forall path :: KeptAt(out[place].document, seeds[i].document, path)
    ensures At(out[place].document, ["event", "id"]) == Some(Atom(seeds[i].id))
    ensures At(seeds[i].document, ["event", "kind"]).None? ==> At(out[place].document, ["event", "kind"]) == Some(Atom("event"))
  {
    var s := seeds[i];
    ExpandsIff(plan, seeds, source, collate);
    FindSeed(plan, seeds, i);
    NewIdentifier(plan, seeds, i);
    var e := TelemetryEvent(s.id, plan.anchor - SeedOffset(i), Normalized(s.id, s.document));
    FindHolds(SignalsOf(plan, seeds), s.id);
    place := SignalPlaced(plan, seeds, source, collate, out, e);
    forall path ensures KeptAt(out[place].document, s.document, path) {
      NormalizedAt(s.id, s.document, path);
      StampedAt(e, place, plan.anchor, path);
    }
    StampedMarks(e, place, plan.anchor);
    NormalizedMarks(s.id, s.document);
    StampedAt(e, place, plan.anchor, ["event", "kind"]);
  }

  /** Leaf values of the seed that lie outside the stamped records or in "event". */
  predicate LeafKept(event: Doc, seed: Doc, path: seq<string>) {
    At(seed, path).Some? && !At(seed, path).value.Record? && (Inner(path) || EventMember(path))
    ==> At(event, path) == At(seed, path)
  }

  lemma LaidLeaf(known: Doc, s: Seed, place: nat, anchor: Time, time: Time, path: seq<string>)
    requires s.document.Record?
    ensures LeafKept(Stamped(TelemetryEvent(s.id, time, Normalized(s.id, DeepMerge(known, s.document))), place, anchor).document, s.document, path)
  {
    var merged := DeepMerge(known, s.document);
    MergeAt(known, s.document, path);
    NormalizedAt(s.id, merged, path);
    StampedAt(TelemetryEvent(s.id, time, Normalized(s.id, merged)), place, anchor, path);
  }

  /** The last seed of an identifier, whoever used it before: its leaf values are in the
      event. */
  lemma SeedLaidOver(plan: Plan, seeds: seq<Seed>, source: Source, collate: (string, string) -> bool, out: Corpus, i: nat)
    returns (place: nat)
    requires Expanded(plan, seeds, source, collate, out) && i < |seeds| && LastOfItsId(seeds, i)
    ensures place < |out| && out[place].id == seeds[i].id
    ensures forall path :: LeafKept(out[place].document, seeds[i].document, path)
  {
    var s := seeds[i];
    ExpandsIff(plan, seeds, source, collate);
    FindSeed(plan, seeds, i);
    var known := Find(SignalsOf(plan, seeds[..i]), s.id);
    var e := Laid(known, s, plan.anchor - SeedOffset(i));
    FindHolds(SignalsOf(plan, seeds), s.id);
    place := SignalPlaced(plan, seeds, source, collate, out, e);
    forall path ensures LeafKept(out[place].document, s.document, path) {
      match known {
        case Some(earlier) => LaidLeaf(earlier.document, s, place, plan.anchor, earlier.time, path);
        case None =>
          NormalizedAt(s.id, s.document, path);
          StampedAt(e, place, plan.anchor, path);
      }
    }
  }

  /** Two seeds of one identifier, and no other: the second is laid over the first. */
  predicate OnlyTwo(plan: Plan, seeds: seq<Seed>, i: nat, j: nat)
    requires i < j < |seeds|
  {
    && seeds[i].id == seeds[j].id && FirstOfItsId(plan, seeds, i) && LastOfItsId(seeds, j)
    && forall k :: i < k < j ==> seeds[k].id != seeds[i].id
  }

  function FirstLaid(plan: Plan, seeds: seq<Seed>, i: nat): TelemetryEvent
    requires i < |seeds|
  {
    TelemetryEvent(seeds[i].id, plan.anchor - SeedOffset(i), Normalized(seeds[i].id, seeds[i].document))
  }

  lemma FindTwo(plan: Plan, seeds: seq<Seed>, i: nat, j: nat)
    requires i < j < |seeds| && OnlyTwo(plan, seeds, i, j)
    ensures Find(SignalsOf(plan, seeds), seeds[j].id)
         == Some(Laid(Some(FirstLaid(plan, seeds, i)), seeds[j], plan.anchor - SeedOffset(j)))
  {
    FindSeed(plan, seeds, j);
    FindFirst(plan, seeds, i, j);
  }

  lemma FindFirst(plan: Plan, seeds: seq<Seed>, i: nat, j: nat)
    requires i < j < |seeds| && OnlyTwo(plan, seeds, i, j)
    ensures Find(SignalsOf(plan, seeds[..j]), seeds[j].id) == Some(FirstLaid(plan, seeds, i))
  {
    NewIdentifier(plan, seeds, i);
    FindInPrefix(plan, seeds, seeds[..j], i);
  }

  lemma FindInPrefix(plan: Plan, seeds: seq<Seed>, shorter: seq<Seed>, i: nat)
    requires i < |shorter| && shorter <= seeds && LastOfItsId(shorter, i)
    ensures Find(SignalsOf(plan, shorter), seeds[i].id)
         == Some(Laid(Find(SignalsOf(plan, seeds[..i]), seeds[i].id), seeds[i], plan.anchor - SeedOffset(i)))
  {
    assert shorter[..i] == seeds[..i] && shorter[i] == seeds[i];
    FindSeed(plan, shorter, i);
  }

  lemma OverlayKeeps(id: string, first: Doc, second: Doc, time: Time, place: nat, anchor: Time, path: seq<string>)
    requires first.Record? && second.Record? && Inner(path) && Beside(first, second, path)
    ensures var e := TelemetryEvent(id, time, Normalized(id, DeepMerge(Normalized(id, first), second)));
            At(Stamped(e, place, anchor).document, path) == At(first, path)
  {
    var earlier := Normalized(id, first);
    var merged := DeepMerge(earlier, second);
    BesideNormalized(id, first, second, path);
    MergeAt(earlier, second, path);
    NormalizedAt(id, first, path);
    NormalizedAt(id, merged, path);
    StampedAt(TelemetryEvent(id, time, Normalized(id, merged)), place, anchor, path);
  }

  /** What the first of two seeds has and the second does not mention is still there. */
  lemma UnmentionedKept(plan: Plan, seeds: seq<Seed>, source: Source, collate: (string, string) -> bool, out: Corpus,
                        i: nat, j: nat, path: seq<string>)
    returns (place: nat)
    requires Expanded(plan, seeds, source, collate, out) && i < j < |seeds| && OnlyTwo(plan, seeds, i, j)
    requires Inner(path) && Beside(seeds[i].document, seeds[j].document, path)
    ensures place < |out| && out[place].id == seeds[i].id && At(out[place].document, path) == At(seeds[i].document, path)
  {
    ExpandsIff(plan, seeds, source, collate);
    FindTwo(plan, seeds, i, j);
    FindHolds(SignalsOf(plan, seeds), seeds[j].id);
    var e := Laid(Some(FirstLaid(plan, seeds, i)), seeds[j], plan.anchor - SeedOffset(j));
    place := SignalPlaced(plan, seeds, source, collate, out, e);
    OverlayKeeps(seeds[j].id, seeds[i].document, seeds[j].document, plan.anchor - SeedOffset(i), place, plan.anchor, path);
  }

  lemma BesideNormalized(id: string, d: Doc, overlay: Doc, path: seq<string>)
    requires Inner(path) && Beside(d, overlay, path)
    ensures Beside(Normalized(id, d), overlay, path)
  {}

  // ----- Every event -----

  /** Every event is stamped with its identifier, its place, the anchor and the generator's
      name. */
  lemma AllStamped(plan: Plan, seeds: seq<Seed>, source: Source, collate: (string, string) -> bool, out: Corpus, place: nat)
    requires Expanded(plan, seeds, source, collate, out) && place < |out|
    ensures var document := out[place].document;
            && At(document, ["event", "id"]) == Some(Atom(out[place].id))
            && At(document, ["zerotop", "scenario_event_id"]) == Some(Atom(out[place].id))
            && At(document, ["zerotop", "sequence"]) == Some(Number(place))
            && At(document, ["zerotop", "generated_at"]) == Some(Number(plan.anchor))
            && At(document, ["zerotop", "source"]) == Some(Atom("scenario_log_generator"))
  {
    ExpandedIs(plan, seeds, source, collate, out);
    StampedMarks(Sort(Combined(plan, seeds, source, PlanClock(plan)), Before(collate))[place], place, plan.anchor);
  }

  /** Where the profile's own stages happen, in milliseconds before the anchor. */
  function StageOffset(k: nat): int
    requires k < 6
  {
    [13 * 60000, 126 * 6000, 118 * 6000, 104 * 6000, 85 * 6000, 63 * 6000][k]
  }

  lemma {:induction false} FindUntouched(plan: Plan, seeds: seq<Seed>, id: string)
    requires forall i :: 0 <= i < |seeds| ==> seeds[i].id != id
    ensures Find(SignalsOf(plan, seeds), id) == Find(SignalsOf(plan, []), id)
    decreases |seeds|
  {
    if seeds != [] {
      FindLast(plan, seeds, id);
      FindUntouched(plan, seeds[..|seeds| - 1], id);
    }
  }

  lemma StageFound(anchor: Time, k: nat)
    requires k < 6
    ensures var e := Find(PowershellSignals(anchor), POWERSHELL_IDS[k]);
            e.Some? && e.value.id == POWERSHELL_IDS[k] && e.value.time == anchor - StageOffset(k)
  {
    var signals := PowershellSignals(anchor);
    PowershellIdsDistinct();
    FindIn(signals, k);
  }

  lemma {:induction false} FindIn(signals: Corpus, k: nat)
    requires k < |signals| && Distinct(IdsOf(signals))
    ensures Find(signals, signals[k].id) == Some(signals[k])
  {
    if k > 0 {
      assert IdsOf(signals)[0] != IdsOf(signals)[k];
      assert IdsOf(signals)[1..] == IdsOf(signals[1..]);
      FindIn(signals[1..], k - 1);
    }
  }

  lemma FindStage(plan: Plan, seeds: seq<Seed>, k: nat) returns (e: TelemetryEvent)
    requires plan.powershell && k < 6 && forall i :: 0 <= i < |seeds| ==> seeds[i].id != POWERSHELL_IDS[k]
    ensures e in SignalsOf(plan, seeds) && e.id == POWERSHELL_IDS[k] && e.time == plan.anchor - StageOffset(k)
  {
    FindUntouched(plan, seeds, POWERSHELL_IDS[k]);
    assert SignalsOf(plan, []) == PowershellSignals(plan.anchor);
    StageFound(plan.anchor, k);
    FindHolds(SignalsOf(plan, seeds), POWERSHELL_IDS[k]);
    e := Find(SignalsOf(plan, seeds), POWERSHELL_IDS[k]).value;
  }

  lemma StagesAscend(k: nat)
    requires 0 < k < 6
    ensures 0 < StageOffset(k) < StageOffset(k - 1) <= 13 * 60000
  {}

  /** The six stages of the PowerShell profile happen in their order, at fixed times in the
      last thirteen minutes, unless a seed takes one of them over. */
  lemma StagesInOrder(plan: Plan, seeds: seq<Seed>, source: Source, collate: (string, string) -> bool, out: Corpus, k: nat)
    returns (place: nat)
    requires Expanded(plan, seeds, source, collate, out) && plan.powershell && k < 6
    requires forall i :: 0 <= i < |seeds| ==> seeds[i].id != POWERSHELL_IDS[k]
    ensures place < |out| && out[place].id == POWERSHELL_IDS[k] && out[place].time == plan.anchor - StageOffset(k)
    ensures k > 0 ==> StageOffset(k) < StageOffset(k - 1)
  {
    if k > 0 { StagesAscend(k); }
    var e := FindStage(plan, seeds, k);
    place := SignalPlaced(plan, seeds, source, collate, out, e);
  }

  // ----- Background -----

  const CATEGORIES := {"authentication", "network", "file", "web", "process"}

  lemma TruncatedNear(x: real)
    ensures x - 1.0 < Truncated(x) as real < x + 1.0
  {}

  lemma BackgroundTimeNear(i: nat, count: nat, anchor: Time, rangeMinutes: nat, r: Fraction)
    requires i < count && rangeMinutes > 0
    ensures var slot := (rangeMinutes * 60000) as real / count as real;
            var exact := (anchor - rangeMinutes * 60000) as real + i as real * slot;
            && exact - 1.0 < BackgroundTime(i, count, anchor, rangeMinutes, r) as real < exact + 2501.0
            && BackgroundTime(i, count, anchor, rangeMinutes, r) as real < exact + slot + 1.0
  {
    IntervalSpan(count, rangeMinutes);
    var slot := Interval(count, rangeMinutes);
    JitterWithin(slot, r);
    JitterSmall(slot, r);
    TruncatedNear(ExactTime(i, count, anchor, rangeMinutes, r));
    NearSlot((anchor - rangeMinutes * 60000) as real, Slot(i, slot), slot, Jitter(slot, r),
             BackgroundTime(i, count, anchor, rangeMinutes, r) as real);
  }

  lemma JitterSmall(slot: real, r: real)
    requires slot > 0.0 && 0.0 <= r < 1.0
    ensures Jitter(slot, r) <= 2500.0
  {
    if slot < 2500.0 { ShareBelow(r, slot); } else { ShareBelow(r, 2500.0); }
  }

  lemma NearSlot(base: real, start: real, slot: real, jitter: real, time: real)
    requires 0.0 <= jitter < slot && jitter <= 2500.0 && base + start + jitter - 1.0 < time < base + start + jitter + 1.0
    ensures base + start - 1.0 < time < base + start + 2501.0 && time < base + start + slot + 1.0
  {}

  lemma BackgroundDocumentAt(id: string, kind: Kind)
    ensures At(BackgroundDocument(id, kind), ["event", "kind"]) == Some(Atom("event"))
    ensures Categorized(BackgroundDocument(id, kind))
    ensures var category := At(BackgroundDocument(id, kind), ["event", "category"]);
            && (kind == Authentication ==> category == Some(Atom("authentication"))) && (kind == Network ==> category == Some(Atom("network")))
            && (kind == File ==> category == Some(Atom("file"))) && (kind == Web ==> category == Some(Atom("web")))
            && (kind == Process || kind == PowerShell ==> category == Some(Atom("process")))
  {
    AtPair(BackgroundDocument(id, kind), "event", "kind");
    AtPair(BackgroundDocument(id, kind), "event", "category");
  }

  /** The time lies in the i-th of equally long slots of the range, at most two and a half
      seconds into it, give or take the rounding to milliseconds. */
  predicate InSlot(time: Time, plan: Plan, i: nat, count: nat)
    requires count > 0
  {
    var slot := (plan.rangeMinutes * 60000) as real / count as real;
    var exact := (plan.anchor - plan.rangeMinutes * 60000) as real + i as real * slot;
    exact - 1.0 < time as real < exact + 2501.0 && time as real < exact + slot + 1.0
  }

  lemma ClockInSlot(plan: Plan, i: nat, count: nat, r: Fraction)
    requires i < count && plan.rangeMinutes > 0
    ensures InSlot(PlanClock(plan)(i, count, r), plan, i, count)
  {
    BackgroundTimeNear(i, count, plan.anchor, plan.rangeMinutes, r);
  }

  lemma CombinedInSlot(plan: Plan, seeds: seq<Seed>, source: Source, i: nat)
    requires |SignalsOf(plan, seeds)| <= plan.totalEvents && i < BackgroundCount(plan, seeds) && plan.rangeMinutes > 0
    ensures var e := Combined(plan, seeds, source, PlanClock(plan))[i];
            e.id == EventId(i) && InSlot(e.time, plan, i, BackgroundCount(plan, seeds))
  {
    CombinedAt(plan, seeds, source, PlanClock(plan), i);
    var e := Combined(plan, seeds, source, PlanClock(plan))[i];
    var r: Fraction :| e.time == PlanClock(plan)(i, BackgroundCount(plan, seeds), r);
    ClockInSlot(plan, i, BackgroundCount(plan, seeds), r);
  }

  ghost predicate Categorized(d: Doc) {
    exists category :: category in CATEGORIES && At(d, ["event", "category"]) == Some(Atom(category))
  }

  lemma CombinedCategorized(plan: Plan, seeds: seq<Seed>, source: Source, i: nat, place: nat)
    requires |SignalsOf(plan, seeds)| <= plan.totalEvents && i < BackgroundCount(plan, seeds) && plan.rangeMinutes > 0
    ensures Categorized(Stamped(Combined(plan, seeds, source, PlanClock(plan))[i], place, plan.anchor).document)
  {
    var count := BackgroundCount(plan, seeds);
    var p := DrawingOf(source, count).placements[i];
    var e := Combined(plan, seeds, source, PlanClock(plan))[i];
    assert e == BackgroundEvent(i, count, PlanClock(plan), p);
    BackgroundDocumentAt(EventId(i), p.kind);
    StampedAt(e, place, plan.anchor, ["event", "category"]);
  }

  /** Every background event is in the corpus, in its slot and of a known category. */
  lemma BackgroundInItsSlot(plan: Plan, seeds: seq<Seed>, source: Source, collate: (string, string) -> bool, out: Corpus, i: nat)
    returns (place: nat)
    requires Expanded(plan, seeds, source, collate, out) && i < BackgroundCount(plan, seeds)
    ensures place < |out| && out[place].id == EventId(i) && InSlot(out[place].time, plan, i, BackgroundCount(plan, seeds))
    ensures Categorized(out[place].document)
  {
    ExpandedIs(plan, seeds, source, collate, out);
    BackgroundPlaced(plan, seeds, source, collate, out, i);
    place :| PlacedAt(plan, seeds, source, out, i, place);
    CombinedInSlot(plan, seeds, source, i);
    CombinedCategorized(plan, seeds, source, i, place);
    StampedFacts(Combined(plan, seeds, source, PlanClock(plan))[i], place, plan.anchor);
  }

  /** The first draw places an event in its slot, the second decides its kind in whole
      percents, shifted by 37 from one event to the next, and its contents take one draw
      more, or two for network and web events. */
  lemma DrawsTaken(draw: nat -> Fraction, state: nat, index: nat, percent: nat)
    requires percent < 100 && percent as real <= draw(state + 2 * 0x6D2B79F5) * 100.0 < (percent + 1) as real
    ensures var p := PlacementAt(draw, state, index);
            && p.within == draw(state + 0x6D2B79F5)
            && p.kind == KindAt((37 * index + percent) % 100)
            && StateAfter(state, p.kind) == state + 0x6D2B79F5 * (if p.kind == Network || p.kind == Web then 4 else 3)
  {
    assert state + STEP + STEP == state + 2 * 0x6D2B79F5;
    var kind := PlacementAt(draw, state, index).kind;
    assert Skipped(state + STEP + STEP, 1) == state + 3 * STEP;
    assert Skipped(state + STEP + STEP, 2) == state + 4 * STEP;
  }

  /** How many of the percentiles below `n` give this kind. */
  function Share(kind: Kind, n: nat): nat { if n == 0 then 0 else Share(kind, n - 1) + if KindAt(n - 1) == kind then 1 else 0 }

  lemma {:induction false} ShareUpTo(n: nat)
    requires n <= 100
    ensures Share(Authentication, n) == Capped(n, 0, 23) && Share(Process, n) == Capped(n, 23, 24)
    ensures Share(Network, n) == Capped(n, 47, 19) && Share(File, n) == Capped(n, 66, 13)
    ensures Share(Web, n) == Capped(n, 79, 14) && Share(PowerShell, n) == Capped(n, 93, 7)
  {
    if n > 0 { ShareUpTo(n - 1); }
  }

  /** How far `n` reaches into a stretch of some length. */
  function Capped(n: nat, start: nat, length: nat): nat {
    if n <= start then 0 else if n - start >= length then length else n - start
  }

  /** Of a hundred percentiles 23 mean authentication, 24 processes, 19 the network, 13
      files, 14 the web and 7 PowerShell. */
  lemma KindShares()
    ensures Share(Authentication, 100) == 23 && Share(Process, 100) == 24 && Share(Network, 100) == 19
    ensures Share(File, 100) == 13 && Share(Web, 100) == 14 && Share(PowerShell, 100) == 7
  {
    ShareUpTo(100);
  }

  // ----- Limits -----

  predicate PlainIdentifier(s: string) {
    && 1 <= |s| <= 128 && s[0] !in {'.', '_', ':', '-'}
    && forall i :: 0 <= i < |s| ==> '0' <= s[i] <= '9' || 'a' <= s[i] <= 'z' || 'A' <= s[i] <= 'Z' || s[i] in {'.', '_', ':', '-'}
  }

  lemma PlainIdentifierIs(s: string)
    ensures Identifier(s, 128) <==> PlainIdentifier(s)
  {}

  /** Expansion takes 100 to 5000 events over 15 to 240 minutes, plain identifiers, and
      documents that are records, with no more distinct identifiers than events. */
  lemma ExpandsInNumbers(plan: Plan, seeds: seq<Seed>, source: Source, collate: (string, string) -> bool)
    ensures Expand(plan, seeds, source, collate).Ok? <==>
              && 100 <= plan.totalEvents <= 5000 && 15 <= plan.rangeMinutes <= 240 && PlainIdentifier(plan.seed)
              && (forall i :: 0 <= i < |seeds| ==> PlainIdentifier(seeds[i].id) && seeds[i].document.Record?)
              && |Members(BaseIds(plan)) + Members(SeedIds(seeds))| <= plan.totalEvents
  {
    ExpandsIff(plan, seeds, source, collate);
    PlainIdentifierIs(plan.seed);
    forall i | 0 <= i < |seeds| ensures ValidSeed(seeds[i]) <==> PlainIdentifier(seeds[i].id) && seeds[i].document.Record? {
      PlainIdentifierIs(seeds[i].id);
    }
  }

  // ----- Random numbers -----

  /** The first numbers drawn from state zero. */
  lemma KnownDraws()
    ensures Mix(0x6D2B79F5) == 1144304738 && Mix(0xDA56F3EA) == 1416247 && Mix(0x47826DDF) == 958946056
  {}
}
