/** What the expanded corpus is: its size, its identifiers, its times and its order. */
module TelemetryCorpus {
  import opened Wrappers
  import opened Sorting
  import opened Sequences
  import opened Questions
  import opened ContentContract
  import opened ContractChecker
  import opened BlueTelemetry

  type Corpus = seq<TelemetryEvent>

  function IdsOf(events: Corpus): (ids: seq<string>)
    ensures |ids| == |events|
  {
    seq(|events|, i requires 0 <= i < |events| => events[i].id)
  }

  // ----- Merging documents -----

  /** Applying the same overlay twice is applying it once. */
  lemma {:induction false} MergeTwice(left: Doc, right: Doc)
    ensures DeepMerge(DeepMerge(left, right), right) == DeepMerge(left, right)
    decreases right
  {
    if right.Record? {
      if left.Record? {
        forall k | k in right.fields && k in left.fields
          ensures DeepMerge(DeepMerge(left.fields[k], right.fields[k]), right.fields[k]) == DeepMerge(left.fields[k], right.fields[k])
        {
          MergeTwice(left.fields[k], right.fields[k]);
        }
        forall k | k in right.fields && k !in left.fields ensures DeepMerge(right.fields[k], right.fields[k]) == right.fields[k] {
          MergeSelf(right.fields[k]);
        }
        assert DeepMerge(DeepMerge(left, right), right).fields == DeepMerge(left, right).fields;
      } else {
        MergeSelf(right);
      }
    }
  }

  lemma {:induction false} MergeSelf(d: Doc)
    ensures DeepMerge(d, d) == d
    decreases d
  {
    if d.Record? {
      forall k | k in d.fields ensures DeepMerge(d.fields[k], d.fields[k]) == d.fields[k] { MergeSelf(d.fields[k]); }
      assert DeepMerge(d, d).fields == d.fields;
    }
  }

  /** What lies at the end of a path of keys. */
  function At(d: Doc, path: seq<string>): Option<Doc> {
    if path == [] then Some(d)
    else if d.Record? && path[0] in d.fields then At(d.fields[path[0]], path[1..])
    else None
  }

  /** Both are records along the path until the overlay has nothing to say about it. */
  predicate Beside(left: Doc, right: Doc, path: seq<string>) {
    && path != [] && left.Record? && right.Record?
    && (path[0] in right.fields ==>
          path[0] in left.fields && Beside(left.fields[path[0]], right.fields[path[0]], path[1..]))
  }

  /** The overlay wins wherever it has a value that is not a record, and what it does
      not mention stays as it was. */
  lemma {:induction false} MergeAt(left: Doc, right: Doc, path: seq<string>)
    ensures At(right, path).Some? && !At(right, path).value.Record? ==> At(DeepMerge(left, right), path) == At(right, path)
    ensures Beside(left, right, path) ==> At(DeepMerge(left, right), path) == At(left, path)
    decreases path
  {
    if path != [] && left.Record? && right.Record? && path[0] in right.fields && path[0] in left.fields {
      MergeAt(left.fields[path[0]], right.fields[path[0]], path[1..]);
    }
  }

  // ----- Signals -----

  lemma {:induction false} SetSignalRows(signals: Corpus, s: Seed, time: Time)
    requires Distinct(IdsOf(signals))
    ensures Distinct(IdsOf(SetSignal(signals, s, time)))
    ensures Members(IdsOf(SetSignal(signals, s, time))) == Members(IdsOf(signals)) + {s.id}
  {
    var after := SetSignal(signals, s, time);
    if signals == [] {
      assert IdsOf(after) == [s.id] && IdsOf(signals) == [];
    } else if signals[0].id == s.id {
      assert IdsOf(after) == IdsOf(signals) && IdsOf(signals)[0] == s.id;
    } else {
      var tail := signals[1..];
      assert IdsOf(signals) == [signals[0].id] + IdsOf(tail);
      DistinctCons(signals[0].id, IdsOf(tail));
      SetSignalRows(tail, s, time);
      var rest := SetSignal(tail, s, time);
      assert IdsOf(after) == [signals[0].id] + IdsOf(rest);
      DistinctCons(signals[0].id, IdsOf(rest));
      MembersCons(signals[0].id, IdsOf(tail));
      MembersCons(signals[0].id, IdsOf(rest));
    }
  }

  ghost predicate TimesWithin(events: Corpus, low: Time, high: Time) {
    forall i :: 0 <= i < |events| ==> low <= events[i].time <= high
  }

  lemma {:induction false} SetSignalTimes(signals: Corpus, s: Seed, time: Time, low: Time, high: Time)
    requires TimesWithin(signals, low, high) && low <= time <= high
    ensures TimesWithin(SetSignal(signals, s, time), low, high)
  {
    if signals != [] && signals[0].id != s.id { SetSignalTimes(signals[1..], s, time, low, high); }
  }

  lemma DistinctCons(x: string, rest: seq<string>)
    ensures Distinct([x] + rest) <==> Distinct(rest) && x !in Members(rest)
  {
    var all := [x] + rest;
    if Distinct(all) {
      forall i, j | 0 <= i < j < |rest| ensures rest[i] != rest[j] { assert all[i + 1] != all[j + 1]; }
      forall i | 0 <= i < |rest| ensures rest[i] != x { assert all[0] != all[i + 1]; }
    }
    if Distinct(rest) && x !in Members(rest) {
      forall i, j | 0 <= i < j < |all| ensures all[i] != all[j] {
        if i == 0 { assert rest[j - 1] in Members(rest); }
      }
    }
  }

  lemma MembersCons(x: string, rest: seq<string>)
    ensures Members([x] + rest) == {x} + Members(rest)
  {}

  function SeedIds(seeds: seq<Seed>): (ids: seq<string>)
    ensures |ids| == |seeds|
  {
    seq(|seeds|, i requires 0 <= i < |seeds| => seeds[i].id)
  }

  function BaseIds(plan: Plan): seq<string> { if plan.powershell then POWERSHELL_IDS else [] }

  lemma PowershellIdsDistinct()
    ensures Distinct(POWERSHELL_IDS)
  {
    forall i, j | 0 <= i < j < 6 ensures POWERSHELL_IDS[i] != POWERSHELL_IDS[j] {
      var a, b := POWERSHELL_IDS[i], POWERSHELL_IDS[j];
      assert |a| != |b| || a[7] != b[7];
    }
  }

  lemma PowershellTimes(anchor: Time)
    ensures TimesWithin(PowershellSignals(anchor), anchor - 840000, anchor)
  {}

  lemma BaseSignalsAre(plan: Plan)
    ensures IdsOf(SignalsOf(plan, [])) == BaseIds(plan) && Distinct(BaseIds(plan))
    ensures TimesWithin(SignalsOf(plan, []), plan.anchor - 840000, plan.anchor)
  {
    PowershellIdsDistinct();
    PowershellTimes(plan.anchor);
    assert IdsOf(PowershellSignals(plan.anchor)) == POWERSHELL_IDS;
    assert IdsOf([]) == [];
  }

  lemma {:induction false} SignalTimes(plan: Plan, seeds: seq<Seed>)
    ensures TimesWithin(SignalsOf(plan, seeds), plan.anchor - 840000, plan.anchor)
  {
    if seeds == [] {
      BaseSignalsAre(plan);
    } else {
      var last := |seeds| - 1;
      SignalTimes(plan, seeds[..last]);
      SetSignalTimes(SignalsOf(plan, seeds[..last]), seeds[last], plan.anchor - SeedOffset(last), plan.anchor - 840000, plan.anchor);
    }
  }

  lemma {:induction false} SignalIds(plan: Plan, seeds: seq<Seed>)
    ensures Distinct(IdsOf(SignalsOf(plan, seeds)))
    ensures Members(IdsOf(SignalsOf(plan, seeds))) == Members(BaseIds(plan)) + Members(SeedIds(seeds))
  {
    if seeds == [] {
      BaseSignalsAre(plan);
      assert SeedIds(seeds) == [];
    } else {
      var last := |seeds| - 1;
      SignalIds(plan, seeds[..last]);
      SignalIdsStep(plan, SignalsOf(plan, seeds[..last]), seeds, plan.anchor - SeedOffset(last));
    }
  }

  lemma SignalIdsStep(plan: Plan, signals: Corpus, seeds: seq<Seed>, time: Time)
    requires seeds != [] && Distinct(IdsOf(signals))
    requires Members(IdsOf(signals)) == Members(BaseIds(plan)) + Members(SeedIds(seeds[..|seeds| - 1]))
    ensures var after := IdsOf(SetSignal(signals, seeds[|seeds| - 1], time));
            Distinct(after) && Members(after) == Members(BaseIds(plan)) + Members(SeedIds(seeds))
  {
    var last := |seeds| - 1;
    SetSignalRows(signals, seeds[last], time);
    assert SeedIds(seeds) == SeedIds(seeds[..last]) + [seeds[last].id];
    MembersAppend(SeedIds(seeds[..last]), seeds[last].id);
  }

  /** One signal per distinct seed or profile identifier, none more than fourteen
      minutes before the anchor. */
  lemma SignalsAre(plan: Plan, seeds: seq<Seed>)
    ensures Distinct(IdsOf(SignalsOf(plan, seeds)))
    ensures Members(IdsOf(SignalsOf(plan, seeds))) == Members(BaseIds(plan)) + Members(SeedIds(seeds))
    ensures TimesWithin(SignalsOf(plan, seeds), plan.anchor - 840000, plan.anchor)
  {
    SignalIds(plan, seeds);
    SignalTimes(plan, seeds);
  }

  // ----- Background -----

  lemma DivideBack(x: real, n: real)
    requires n > 0.0
    ensures n * (x / n) == x
    ensures x > 0.0 ==> x / n > 0.0
  {}

  lemma IntervalSpan(count: nat, rangeMinutes: nat)
    requires count > 0 && rangeMinutes > 0
    ensures Interval(count, rangeMinutes) > 0.0
    ensures Slot(count, Interval(count, rangeMinutes)) == (rangeMinutes * 60000) as real
  {
    DivideBack((rangeMinutes * 60000) as real, count as real);
  }

  /** The jitter never reaches the next slot. */
  lemma JitterWithin(interval: real, r: real)
    requires interval > 0.0 && 0.0 <= r < 1.0
    ensures 0.0 <= Jitter(interval, r) < interval
  {
    if interval < 2500.0 { ShareBelow(r, interval); } else { ShareBelow(r, 2500.0); }
  }

  lemma ShareBelow(r: real, most: real)
    requires 0.0 <= r < 1.0 && most > 0.0
    ensures 0.0 <= r * most < most
  {}

  lemma SlotBelow(a: nat, b: nat, interval: real)
    requires a < b && interval > 0.0
    ensures Slot(a, interval) + interval <= Slot(b, interval)
    ensures Slot(a, interval) >= 0.0
  {
    var gap := (b - a - 1) as real;
    assert gap * interval >= 0.0;
    assert b as real * interval == a as real * interval + interval + gap * interval;
  }

  lemma SumOrdered(base: real, a: real, b: real, interval: real, r: real, q: real)
    requires a + interval <= b && r < interval && 0.0 <= q
    ensures base + a + r < base + b + q
  {}

  lemma ExactOrdered(a: nat, b: nat, count: nat, anchor: Time, rangeMinutes: nat, r: real, q: real)
    requires a < b < count && rangeMinutes > 0 && 0.0 <= r < 1.0 && 0.0 <= q < 1.0
    ensures ExactTime(a, count, anchor, rangeMinutes, r) < ExactTime(b, count, anchor, rangeMinutes, q)
  {
    var interval := Interval(count, rangeMinutes);
    IntervalSpan(count, rangeMinutes);
    JitterWithin(interval, r);
    JitterWithin(interval, q);
    SlotBelow(a, b, interval);
    SumOrdered((anchor - rangeMinutes * 60000) as real, Slot(a, interval), Slot(b, interval), interval,
               Jitter(interval, r), Jitter(interval, q));
  }

  lemma ExactBounded(i: nat, count: nat, anchor: Time, rangeMinutes: nat, r: real)
    requires i < count && rangeMinutes > 0 && 0.0 <= r < 1.0
    ensures (anchor - rangeMinutes * 60000) as real <= ExactTime(i, count, anchor, rangeMinutes, r) < anchor as real
  {
    var interval, base := Interval(count, rangeMinutes), (anchor - rangeMinutes * 60000) as real;
    IntervalSpan(count, rangeMinutes);
    JitterWithin(interval, r);
    SlotBelow(i, count, interval);
    SumOrdered(base, Slot(i, interval), Slot(count, interval), interval, Jitter(interval, r), 0.0);
  }

  /** Truncation toward zero keeps order and integer bounds on both sides of zero. */
  lemma TruncatedMonotone(x: real, y: real)
    requires x <= y
    ensures Truncated(x) <= Truncated(y)
  {}

  lemma TruncatedWithin(x: real, low: int, high: int)
    requires low as real <= x <= high as real
    ensures low <= Truncated(x) <= high
  {
    TruncatedMonotone(low as real, x);
    TruncatedMonotone(x, high as real);
    assert Truncated(low as real) == low && Truncated(high as real) == high;
  }

  lemma BackgroundTimeWithin(i: nat, count: nat, anchor: Time, rangeMinutes: nat, r: Fraction)
    requires i < count && rangeMinutes > 0
    ensures anchor - rangeMinutes * 60000 <= BackgroundTime(i, count, anchor, rangeMinutes, r) <= anchor
  {
    ExactBounded(i, count, anchor, rangeMinutes, r);
    TruncatedWithin(ExactTime(i, count, anchor, rangeMinutes, r), anchor - rangeMinutes * 60000, anchor);
  }

  lemma BackgroundTimesOrdered(i: nat, j: nat, count: nat, anchor: Time, rangeMinutes: nat, r: Fraction, q: Fraction)
    requires i < j < count && rangeMinutes > 0
    ensures BackgroundTime(i, count, anchor, rangeMinutes, r) <= BackgroundTime(j, count, anchor, rangeMinutes, q)
  {
    ExactOrdered(i, j, count, anchor, rangeMinutes, r, q);
    TruncatedMonotone(ExactTime(i, count, anchor, rangeMinutes, r), ExactTime(j, count, anchor, rangeMinutes, q));
  }

  function Power(width: nat): nat { if width == 0 then 1 else 10 * Power(width - 1) }

  lemma {:induction false} PaddedInjective(m: nat, n: nat, width: nat)
    requires m < Power(width) && n < Power(width) && Padded(m, width) == Padded(n, width)
    ensures m == n
    decreases width
  {
    if width > 0 {
      var a, b := Padded(m, width), Padded(n, width);
      assert a[..width - 1] == Padded(m / 10, width - 1) && b[..width - 1] == Padded(n / 10, width - 1);
      assert a[width - 1] == Digit(m % 10) && b[width - 1] == Digit(n % 10);
      PaddedInjective(m / 10, n / 10, width - 1);
    }
  }

  lemma EventIdsDiffer(i: nat, j: nat)
    requires i < 99999 && j < 99999 && i != j
    ensures EventId(i) != EventId(j)
  {
    if EventId(i) == EventId(j) {
      assert EventId(i)[4..] == Padded(i + 1, 5) && EventId(j)[4..] == Padded(j + 1, 5);
      assert Power(3) == 1000 && Power(5) == 100000;
      PaddedInjective(i + 1, j + 1, 5);
    }
  }

  // ----- Order -----

  lemma EarlierFacts(collate: (string, string) -> bool, x: TelemetryEvent, y: TelemetryEvent, z: TelemetryEvent)
    requires StrictTotalOrder(collate)
    ensures !Earlier(collate, x, x)
    ensures Earlier(collate, x, y) && Earlier(collate, y, z) ==> Earlier(collate, x, z)
    ensures Earlier(collate, x, z) ==> Earlier(collate, x, y) || Earlier(collate, y, z)
  {
    assert !collate(x.id, x.id);
    assert collate(x.id, y.id) && collate(y.id, z.id) ==> collate(x.id, z.id);
    assert x.id == y.id || collate(x.id, y.id) || collate(y.id, x.id);
    assert collate(y.id, x.id) && collate(x.id, z.id) ==> collate(y.id, z.id);
  }

  lemma BeforeIsWeak(collate: (string, string) -> bool)
    requires StrictTotalOrder(collate)
    ensures WeakOrder(Before(collate))
  {
    forall x, y, z
      ensures !Before(collate)(x, x)
      ensures Before(collate)(x, y) && Before(collate)(y, z) ==> Before(collate)(x, z)
      ensures Before(collate)(x, z) ==> Before(collate)(x, y) || Before(collate)(y, z)
    {
      EarlierFacts(collate, x, y, z);
    }
  }

  // ----- The corpus for any clock -----

  /** A clock that keeps to the window and never runs backwards from slot to slot. */
  ghost predicate Paced(clock: Clock, plan: Plan) {
    && (forall i: nat, count: nat, r: Fraction :: i < count ==>
          plan.anchor - plan.rangeMinutes * 60000 <= clock(i, count, r) <= plan.anchor)
    && (forall i: nat, j: nat, count: nat, r: Fraction, q: Fraction :: i < j < count ==> clock(i, count, r) <= clock(j, count, q))
  }

  lemma PlanClockPaced(plan: Plan)
    requires plan.rangeMinutes > 0
    ensures Paced(PlanClock(plan), plan)
  {
    forall i: nat, count: nat, r: Fraction | i < count
      ensures plan.anchor - plan.rangeMinutes * 60000 <= PlanClock(plan)(i, count, r) <= plan.anchor
    {
      BackgroundTimeWithin(i, count, plan.anchor, plan.rangeMinutes, r);
    }
    forall i: nat, j: nat, count: nat, r: Fraction, q: Fraction | i < j < count
      ensures PlanClock(plan)(i, count, r) <= PlanClock(plan)(j, count, q)
    {
      BackgroundTimesOrdered(i, j, count, plan.anchor, plan.rangeMinutes, r, q);
    }
  }

  function BackgroundCount(plan: Plan, seeds: seq<Seed>): int { plan.totalEvents - |SignalsOf(plan, seeds)| }

  function BackgroundIds(count: nat): (ids: seq<string>)
    ensures |ids| == count
  {
    seq(count, i requires 0 <= i < count => EventId(i))
  }

  lemma BackgroundHasIds(placements: seq<Placement>, clock: Clock)
    ensures IdsOf(Background(placements, clock)) == BackgroundIds(|placements|)
  {}

  lemma JoinIds(a: Corpus, b: Corpus)
    ensures IdsOf(a + b) == IdsOf(a) + IdsOf(b)
  {}

  lemma CombinedIds(plan: Plan, seeds: seq<Seed>, source: Source, clock: Clock)
    requires |SignalsOf(plan, seeds)| <= plan.totalEvents
    ensures IdsOf(Combined(plan, seeds, source, clock)) == BackgroundIds(BackgroundCount(plan, seeds)) + IdsOf(SignalsOf(plan, seeds))
  {
    var placements := DrawingOf(source, BackgroundCount(plan, seeds)).placements;
    BackgroundHasIds(placements, clock);
    JoinIds(Background(placements, clock), SignalsOf(plan, seeds));
  }

  lemma CombinedTimes(plan: Plan, seeds: seq<Seed>, source: Source, clock: Clock)
    requires |SignalsOf(plan, seeds)| <= plan.totalEvents && Paced(clock, plan) && plan.rangeMinutes >= 15
    ensures TimesWithin(Combined(plan, seeds, source, clock), plan.anchor - plan.rangeMinutes * 60000, plan.anchor)
  {
    SignalsAre(plan, seeds);
    var low := plan.anchor - plan.rangeMinutes * 60000;
    var background := Background(DrawingOf(source, BackgroundCount(plan, seeds)).placements, clock);
    assert TimesWithin(background, low, plan.anchor);
    assert TimesWithin(SignalsOf(plan, seeds), low, plan.anchor);
  }

  lemma SortedTimes(events: Corpus, lt: (TelemetryEvent, TelemetryEvent) -> bool, anchor: Time, low: Time, high: Time)
    requires TimesWithin(events, low, high)
    ensures TimesWithin(Sequenced(Sort(events, lt), anchor), low, high)
  {
    SortMembers(events, lt);
    var sorted := Sort(events, lt);
    forall p | 0 <= p < |sorted| ensures low <= sorted[p].time <= high {
      assert sorted[p] in events;
    }
  }

  lemma CombinedAt(plan: Plan, seeds: seq<Seed>, source: Source, clock: Clock, i: nat)
    requires |SignalsOf(plan, seeds)| <= plan.totalEvents && i < BackgroundCount(plan, seeds)
    ensures var e, count := Combined(plan, seeds, source, clock)[i], BackgroundCount(plan, seeds);
            e.id == EventId(i) && exists r: Fraction :: e.time == clock(i, count, r)
  {
    var count := BackgroundCount(plan, seeds);
    var placements := DrawingOf(source, count).placements;
    var background := Background(placements, clock);
    assert Combined(plan, seeds, source, clock)[i] == background[i];
    assert background[i].time == clock(i, count, placements[i].within);
  }

  lemma BackgroundOrdered(plan: Plan, seeds: seq<Seed>, source: Source, collate: (string, string) -> bool, clock: Clock, i: nat, j: nat)
    requires Collation(collate) && Paced(clock, plan) && |SignalsOf(plan, seeds)| <= plan.totalEvents <= 5000
    requires i < j < BackgroundCount(plan, seeds)
    ensures Before(collate)(Combined(plan, seeds, source, clock)[i], Combined(plan, seeds, source, clock)[j])
  {
    var d, e := Combined(plan, seeds, source, clock)[i], Combined(plan, seeds, source, clock)[j];
    var count := BackgroundCount(plan, seeds);
    CombinedAt(plan, seeds, source, clock, i);
    CombinedAt(plan, seeds, source, clock, j);
    var r: Fraction :| d.time == clock(i, count, r);
    var q: Fraction :| e.time == clock(j, count, q);
    assert clock(i, count, r) <= clock(j, count, q);
    assert collate(EventId(i), EventId(j));
    assert Earlier(collate, d, e);
  }

  lemma StampedFacts(e: TelemetryEvent, k: nat, anchor: Time)
    ensures var s := Stamped(e, k, anchor);
            && s.id == e.id && s.time == e.time
            && Sub(s.document, EVENT) == Sub(s.document, EVENT)["id" := Atom(s.id)]
            && "sequence" in Sub(s.document, ZEROTOP) && Sub(s.document, ZEROTOP)["sequence"] == Number(k)
  {}

  ghost predicate InOrder(out: Corpus, collate: (string, string) -> bool) {
    forall p, q :: 0 <= p < q < |out| ==>
      out[p].time < out[q].time || (out[p].time == out[q].time && !collate(out[q].id, out[p].id))
  }

  ghost predicate Numbered(out: Corpus) {
    forall p :: 0 <= p < |out| ==>
      && Sub(out[p].document, EVENT) == Sub(out[p].document, EVENT)["id" := Atom(out[p].id)]
      && "sequence" in Sub(out[p].document, ZEROTOP) && Sub(out[p].document, ZEROTOP)["sequence"] == Number(p)
  }

  lemma SequencedOrder(events: Corpus, collate: (string, string) -> bool, anchor: Time)
    requires StrictTotalOrder(collate)
    ensures InOrder(Sequenced(Sort(events, Before(collate)), anchor), collate)
    ensures Numbered(Sequenced(Sort(events, Before(collate)), anchor))
  {
    var sorted := Sort(events, Before(collate));
    var out := Sequenced(sorted, anchor);
    BeforeIsWeak(collate);
    SortNonDescending(events, Before(collate));
    forall p | 0 <= p < |out|
      ensures out[p].id == sorted[p].id && out[p].time == sorted[p].time
      ensures Sub(out[p].document, EVENT) == Sub(out[p].document, EVENT)["id" := Atom(out[p].id)]
      ensures "sequence" in Sub(out[p].document, ZEROTOP) && Sub(out[p].document, ZEROTOP)["sequence"] == Number(p)
    {
      StampedFacts(sorted[p], p, anchor);
    }
    forall p, q | 0 <= p < q < |out|
      ensures out[p].time < out[q].time || (out[p].time == out[q].time && !collate(out[q].id, out[p].id))
    {
      assert !Before(collate)(sorted[q], sorted[p]);
    }
  }

  lemma SameIdsAfterSort(events: Corpus, lt: (TelemetryEvent, TelemetryEvent) -> bool, anchor: Time)
    ensures Members(IdsOf(Sequenced(Sort(events, lt), anchor))) == Members(IdsOf(events))
    ensures |IdsOf(Sequenced(Sort(events, lt), anchor))| == |IdsOf(events)|
  {
    var sorted := Sort(events, lt);
    SortMembers(events, lt);
    assert IdsOf(Sequenced(sorted, anchor)) == IdsOf(sorted);
    SameIds(events, sorted);
    SameIds(sorted, events);
  }

  lemma SameIds(a: Corpus, b: Corpus)
    requires forall e :: e in a ==> e in b
    ensures Members(IdsOf(a)) <= Members(IdsOf(b))
  {
    forall id | id in Members(IdsOf(a)) ensures id in Members(IdsOf(b)) {
      var i :| 0 <= i < |a| && IdsOf(a)[i] == id;
      assert a[i] in b;
      var j :| 0 <= j < |b| && b[j] == a[i];
      assert IdsOf(b)[j] == id;
    }
  }

  lemma JoinedDistinct(a: seq<string>, b: seq<string>)
    requires Distinct(a) && Distinct(b)
    ensures Distinct(a + b) <==> Members(a) !! Members(b)
  {
    var all := a + b;
    if Distinct(all) {
      forall i, j | 0 <= i < |a| && 0 <= j < |b| ensures a[i] != b[j] { assert all[i] != all[|a| + j]; }
    }
    if Members(a) !! Members(b) {
      forall i, j | 0 <= i < j < |all| ensures all[i] != all[j] {
        if i < |a| <= j { assert a[i] in Members(a) && b[j - |a|] in Members(b); }
      }
    }
  }

  /** No seed uses the identifier of a background event that is generated. */
  ghost predicate NoClash(plan: Plan, seeds: seq<Seed>) {
    forall i, k: nat :: 0 <= i < |seeds| && k < BackgroundCount(plan, seeds) ==> seeds[i].id != EventId(k)
  }

  lemma PowershellIdsNoEvents(i: nat, k: nat)
    requires i < 6
    ensures POWERSHELL_IDS[i] != EventId(k)
  {
    assert POWERSHELL_IDS[i][0] == 's' && EventId(k)[0] == 'e';
  }

  lemma NoClashDisjoint(plan: Plan, seeds: seq<Seed>)
    requires |SignalsOf(plan, seeds)| <= plan.totalEvents
    ensures NoClash(plan, seeds) <==>
            Members(BackgroundIds(BackgroundCount(plan, seeds))) !! Members(IdsOf(SignalsOf(plan, seeds)))
  {
    SignalsAre(plan, seeds);
    var count := BackgroundCount(plan, seeds);
    var generated, signals := BackgroundIds(count), IdsOf(SignalsOf(plan, seeds));
    if NoClash(plan, seeds) {
      forall k | 0 <= k < count ensures generated[k] !in Members(signals) {
        forall i | 0 <= i < |BaseIds(plan)| ensures BaseIds(plan)[i] != generated[k] { PowershellIdsNoEvents(i, k); }
        forall i | 0 <= i < |seeds| ensures SeedIds(seeds)[i] != generated[k] { assert seeds[i].id != EventId(k); }
      }
    }
    if Members(generated) !! Members(signals) {
      forall i, k: nat | 0 <= i < |seeds| && k < count ensures seeds[i].id != EventId(k) {
        assert SeedIds(seeds)[i] in Members(SeedIds(seeds)) && generated[k] in Members(generated);
      }
    }
  }

  lemma BackgroundIdsDistinct(count: nat)
    requires count < 99999
    ensures Distinct(BackgroundIds(count))
  {
    forall i, j | 0 <= i < j < count ensures BackgroundIds(count)[i] != BackgroundIds(count)[j] { EventIdsDiffer(i, j); }
  }

  lemma MembersJoin(a: seq<string>, b: seq<string>)
    ensures Members(a + b) == Members(a) + Members(b)
  {}

  lemma CombinedOnceIff(plan: Plan, seeds: seq<Seed>, source: Source, clock: Clock)
    requires |SignalsOf(plan, seeds)| <= plan.totalEvents <= 5000
    ensures var ids := IdsOf(Combined(plan, seeds, source, clock));
            && Members(ids) == Members(SeedIds(seeds)) + Members(BaseIds(plan)) + Members(BackgroundIds(BackgroundCount(plan, seeds)))
            && (Distinct(ids) <==> NoClash(plan, seeds))
  {
    var count := BackgroundCount(plan, seeds);
    SignalsAre(plan, seeds);
    CombinedIds(plan, seeds, source, clock);
    BackgroundIdsDistinct(count);
    JoinedDistinct(BackgroundIds(count), IdsOf(SignalsOf(plan, seeds)));
    NoClashDisjoint(plan, seeds);
    MembersJoin(BackgroundIds(count), IdsOf(SignalsOf(plan, seeds)));
  }

  // ----- The corpus of a plan -----

  ghost predicate Expanded(plan: Plan, seeds: seq<Seed>, source: Source, collate: (string, string) -> bool, out: Corpus) {
    Expand(plan, seeds, source, collate) == Ok(out)
  }

  lemma ExpandedIs(plan: Plan, seeds: seq<Seed>, source: Source, collate: (string, string) -> bool, out: Corpus)
    requires Expanded(plan, seeds, source, collate, out)
    ensures ValidPlan(plan) && |SignalsOf(plan, seeds)| <= plan.totalEvents
    ensures out == Sequenced(Sort(Combined(plan, seeds, source, PlanClock(plan)), Before(collate)), plan.anchor)
  {}

  /** Expansion succeeds exactly for valid plans and seeds whose distinct identifiers
      number no more than the requested events. */
  lemma ExpandsIff(plan: Plan, seeds: seq<Seed>, source: Source, collate: (string, string) -> bool)
    ensures Expand(plan, seeds, source, collate).Ok?
       <==> ValidPlan(plan) && (forall i :: 0 <= i < |seeds| ==> ValidSeed(seeds[i]))
            && |Members(BaseIds(plan)) + Members(SeedIds(seeds))| <= plan.totalEvents
  {
    NoneInvalid(seeds);
    SignalsAre(plan, seeds);
    DistinctIffAsMany(IdsOf(SignalsOf(plan, seeds)));
  }

  lemma {:induction false} NoneInvalid(seeds: seq<Seed>)
    ensures FirstInvalid(seeds).None? <==> forall i :: 0 <= i < |seeds| ==> ValidSeed(seeds[i])
  {
    if seeds != [] { NoneInvalid(seeds[..|seeds| - 1]); }
  }

  /** Exactly the requested number of events, sorted by time and identifier, numbered
      from zero in that order. */
  lemma SortedAndNumbered(plan: Plan, seeds: seq<Seed>, source: Source, collate: (string, string) -> bool, out: Corpus)
    requires StrictTotalOrder(collate) && Expanded(plan, seeds, source, collate, out)
    ensures |out| == plan.totalEvents && InOrder(out, collate) && Numbered(out)
  {
    ExpandedIs(plan, seeds, source, collate, out);
    SequencedOrder(Combined(plan, seeds, source, PlanClock(plan)), collate, plan.anchor);
  }

  /** The corpus holds every distinct seed and profile identifier and every generated
      background identifier and nothing else; each of them exactly once precisely when
      no seed uses an identifier that the background generates. */
  lemma EachOnceIff(plan: Plan, seeds: seq<Seed>, source: Source, collate: (string, string) -> bool, out: Corpus)
    requires Expanded(plan, seeds, source, collate, out)
    ensures 0 <= BackgroundCount(plan, seeds)
    ensures Members(IdsOf(out)) == Members(SeedIds(seeds)) + Members(BaseIds(plan)) + Members(BackgroundIds(BackgroundCount(plan, seeds)))
    ensures Distinct(IdsOf(out)) <==> NoClash(plan, seeds)
  {
    ExpandedIs(plan, seeds, source, collate, out);
    var combined := Combined(plan, seeds, source, PlanClock(plan));
    CombinedOnceIff(plan, seeds, source, PlanClock(plan));
    SameIdsAfterSort(combined, Before(collate), plan.anchor);
    DistinctIffAsMany(IdsOf(combined));
    DistinctIffAsMany(IdsOf(out));
  }

  /** Every event lies in the requested window before the anchor. */
  lemma TimesWithinWindow(plan: Plan, seeds: seq<Seed>, source: Source, collate: (string, string) -> bool, out: Corpus)
    requires Expanded(plan, seeds, source, collate, out)
    ensures TimesWithin(out, plan.anchor - plan.rangeMinutes * 60000, plan.anchor)
  {
    ExpandedIs(plan, seeds, source, collate, out);
    PlanClockPaced(plan);
    CombinedTimes(plan, seeds, source, PlanClock(plan));
    SortedTimes(Combined(plan, seeds, source, PlanClock(plan)), Before(collate), plan.anchor,
                plan.anchor - plan.rangeMinutes * 60000, plan.anchor);
  }

  lemma OrderKept(sorted: Corpus, lt: (TelemetryEvent, TelemetryEvent) -> bool, p: nat, q: nat)
    requires StrictOrder(lt) && NonDescending(sorted, lt)
    requires p < |sorted| && q < |sorted| && lt(sorted[p], sorted[q])
    ensures p < q
  {
    assert !lt(sorted[p], sorted[p]);
  }

  /** `place` is where the i-th background event went. */
  ghost predicate PlacedAt(plan: Plan, seeds: seq<Seed>, source: Source, out: Corpus, i: nat, place: nat)
    requires |SignalsOf(plan, seeds)| <= plan.totalEvents && i < BackgroundCount(plan, seeds)
    requires plan.rangeMinutes >= 0
  {
    place < |out| && out[place] == Stamped(Combined(plan, seeds, source, PlanClock(plan))[i], place, plan.anchor)
  }

  lemma BackgroundPlaced(plan: Plan, seeds: seq<Seed>, source: Source, collate: (string, string) -> bool, out: Corpus, i: nat)
    requires Expanded(plan, seeds, source, collate, out)
    requires |SignalsOf(plan, seeds)| <= plan.totalEvents && i < BackgroundCount(plan, seeds) && plan.rangeMinutes >= 0
    ensures exists place :: PlacedAt(plan, seeds, source, out, i, place)
  {
    ExpandedIs(plan, seeds, source, collate, out);
    var combined := Combined(plan, seeds, source, PlanClock(plan));
    var sorted := Sort(combined, Before(collate));
    SortMembers(combined, Before(collate));
    assert combined[i] in sorted;
    var place :| 0 <= place < |sorted| && sorted[place] == combined[i];
    assert PlacedAt(plan, seeds, source, out, i, place);
  }

  /** The generated background, in the order of generation, is a subsequence of the corpus. */
  lemma BackgroundKeepsOrder(plan: Plan, seeds: seq<Seed>, source: Source, collate: (string, string) -> bool, out: Corpus)
    returns (places: seq<nat>)
    requires Collation(collate) && Expanded(plan, seeds, source, collate, out)
    requires |SignalsOf(plan, seeds)| <= plan.totalEvents && plan.rangeMinutes >= 0
    ensures |places| == BackgroundCount(plan, seeds)
    ensures forall i :: 0 <= i < |places| ==> PlacedAt(plan, seeds, source, out, i, places[i])
    ensures forall i, j :: 0 <= i < j < |places| ==> places[i] < places[j]
  {
    places := [];
    while |places| < BackgroundCount(plan, seeds)
      invariant |places| <= BackgroundCount(plan, seeds)
      invariant forall i :: 0 <= i < |places| ==> PlacedAt(plan, seeds, source, out, i, places[i])
    {
      BackgroundPlaced(plan, seeds, source, collate, out, |places|);
      var place :| PlacedAt(plan, seeds, source, out, |places|, place);
      places := places + [place];
    }
    forall i, j | 0 <= i < j < |places| ensures places[i] < places[j] {
      LaterPlacedLater(plan, seeds, source, collate, out, i, j, places[i], places[j]);
    }
  }

  lemma LaterPlacedLater(plan: Plan, seeds: seq<Seed>, source: Source, collate: (string, string) -> bool, out: Corpus,
                         i: nat, j: nat, p: nat, q: nat)
    requires Collation(collate) && Expanded(plan, seeds, source, collate, out)
    requires |SignalsOf(plan, seeds)| <= plan.totalEvents && plan.rangeMinutes >= 0
    requires i < j < BackgroundCount(plan, seeds)
    requires PlacedAt(plan, seeds, source, out, i, p) && PlacedAt(plan, seeds, source, out, j, q)
    ensures p < q
  {
    ExpandedIs(plan, seeds, source, collate, out);
    PlanClockPaced(plan);
    PlacedInOrder(plan, seeds, source, collate, PlanClock(plan), out, i, j, p, q);
  }

  lemma PlacedInOrder(plan: Plan, seeds: seq<Seed>, source: Source, collate: (string, string) -> bool, clock: Clock, out: Corpus,
                      i: nat, j: nat, p: nat, q: nat)
    requires Collation(collate) && Paced(clock, plan) && |SignalsOf(plan, seeds)| <= plan.totalEvents <= 5000
    requires out == Sequenced(Sort(Combined(plan, seeds, source, clock), Before(collate)), plan.anchor)
    requires i < j < BackgroundCount(plan, seeds) && p < |out| && q < |out|
    requires out[p] == Stamped(Combined(plan, seeds, source, clock)[i], p, plan.anchor)
    requires out[q] == Stamped(Combined(plan, seeds, source, clock)[j], q, plan.anchor)
    ensures p < q
  {
    var combined, lt := Combined(plan, seeds, source, clock), Before(collate);
    var sorted := Sort(combined, lt);
    BackgroundOrdered(plan, seeds, source, collate, clock, i, j);
    BeforeIsWeak(collate);
    SortNonDescending(combined, lt);
    StampedFacts(combined[i], p, plan.anchor);
    StampedFacts(combined[j], q, plan.anchor);
    StampedFacts(sorted[p], p, plan.anchor);
    StampedFacts(sorted[q], q, plan.anchor);
    assert Earlier(collate, sorted[p], sorted[q]);
    OrderKept(sorted, lt, p, q);
  }

  // ----- How often an identifier occurs -----

  lemma IdsRemove(events: Corpus, k: nat)
    requires k < |events|
    ensures multiset(IdsOf(events)) == multiset(IdsOf(Remove(events, k))) + multiset{events[k].id}
  {
    assert events == events[..k] + [events[k]] + events[k + 1..];
    JoinIds(events[..k] + [events[k]], events[k + 1..]);
    JoinIds(events[..k], [events[k]]);
    JoinIds(events[..k], events[k + 1..]);
    assert IdsOf([events[k]]) == [events[k].id];
  }

  lemma {:induction false} IdsPermuted(a: Corpus, b: Corpus)
    requires multiset(a) == multiset(b)
    ensures multiset(IdsOf(a)) == multiset(IdsOf(b))
    decreases |b|
  {
    assert |multiset(a)| == |a| && |multiset(b)| == |b|;
    if b != [] {
      var last := |b| - 1;
      var k := PlaceOf(a, b);
      IdsRemove(a, k);
      IdsRemove(b, last);
      assert Remove(b, last) == b[..last];
      IdsPermuted(Remove(a, k), b[..last]);
    }
  }

  lemma {:induction false} CountedOnce(ids: seq<string>, id: string)
    requires Distinct(ids)
    ensures multiset(ids)[id] == if id in Members(ids) then 1 else 0
    decreases |ids|
  {
    if ids != [] {
      var last := |ids| - 1;
      assert ids == ids[..last] + [ids[last]];
      assert ids[last] !in ids[..last];
      CountedOnce(ids[..last], id);
    }
  }

  /** An identifier occurs once for being a seed's or the profile's, and once more for
      being one that the background generates. */
  lemma TimesListed(plan: Plan, seeds: seq<Seed>, source: Source, collate: (string, string) -> bool, out: Corpus, id: string)
    requires Expanded(plan, seeds, source, collate, out)
    ensures 0 <= BackgroundCount(plan, seeds)
    ensures multiset(IdsOf(out))[id]
         == (if id in Members(SeedIds(seeds)) + Members(BaseIds(plan)) then 1 else 0)
            + (if id in Members(BackgroundIds(BackgroundCount(plan, seeds))) then 1 else 0)
  {
    ExpandedIs(plan, seeds, source, collate, out);
    var combined := Combined(plan, seeds, source, PlanClock(plan));
    var sorted := Sort(combined, Before(collate));
    assert IdsOf(out) == IdsOf(sorted);
    IdsPermuted(sorted, combined);
    CombinedIds(plan, seeds, source, PlanClock(plan));
    BackgroundIdsDistinct(BackgroundCount(plan, seeds));
    SignalsAre(plan, seeds);
    CountedOnce(BackgroundIds(BackgroundCount(plan, seeds)), id);
    CountedOnce(IdsOf(SignalsOf(plan, seeds)), id);
  }

  lemma FirstEventId()
    ensures EventId(0) == "evt-00001"
  {
    assert Padded(0, 4) == "0000";
  }

  /** A seed named evt-00001 is in the corpus twice, whatever the plan and the other
      seeds, as soon as there is room for one background event; otherwise once. */
  lemma ClashRepeatsAnIdentifier(plan: Plan, seeds: seq<Seed>, source: Source, collate: (string, string) -> bool, out: Corpus)
    requires Expanded(plan, seeds, source, collate, out) && "evt-00001" in SeedIds(seeds)
    ensures multiset(IdsOf(out))["evt-00001"] == if BackgroundCount(plan, seeds) > 0 then 2 else 1
  {
    FirstEventId();
    TimesListed(plan, seeds, source, collate, out, "evt-00001");
    if BackgroundCount(plan, seeds) > 0 {
      assert BackgroundIds(BackgroundCount(plan, seeds))[0] == "evt-00001";
    } else {
      assert BackgroundIds(BackgroundCount(plan, seeds)) == [];
    }
  }

  /** And one such seed is enough, with any document and any plan. */
  lemma OneSeedClashes(plan: Plan, document: Doc, source: Source, collate: (string, string) -> bool)
    requires ValidPlan(plan) && document.Record?
    ensures var out := Expand(plan, [Seed("evt-00001", document)], source, collate);
            out.Ok? && |out.value| == plan.totalEvents && multiset(IdsOf(out.value))["evt-00001"] == 2
  {
    var s := Seed("evt-00001", document);
    assert Identifier("evt-00001", 128);
    OneSeedExpands(plan, s, source, collate);
    assert SeedIds([s])[0] == "evt-00001";
    var out := Expand(plan, [s], source, collate).value;
    ExpandedIs(plan, [s], source, collate, out);
    ClashRepeatsAnIdentifier(plan, [s], source, collate, out);
  }

  lemma OneSeedExpands(plan: Plan, s: Seed, source: Source, collate: (string, string) -> bool)
    requires ValidPlan(plan) && ValidSeed(s)
    ensures Expand(plan, [s], source, collate).Ok? && BackgroundCount(plan, [s]) >= plan.totalEvents - 7 > 0
  {
    assert SeedIds([s]) == [s.id] && Members([s.id]) == {s.id};
    DistinctIffAsMany(BaseIds(plan));
    UnionBound(Members(BaseIds(plan)), Members(SeedIds([s])));
    ExpandsIff(plan, [s], source, collate);
    SignalsAre(plan, [s]);
    DistinctIffAsMany(IdsOf(SignalsOf(plan, [s])));
  }

  lemma UnionBound(a: set<string>, b: set<string>)
    ensures |a + b| <= |a| + |b|
  {
    assert a + b == a + (b - a);
  }
}
