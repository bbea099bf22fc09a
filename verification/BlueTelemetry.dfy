/** Expansion of a few reviewed telemetry seeds into a corpus of events. Times are
    integer milliseconds; random numbers and intervals are exact reals. */
module BlueTelemetry {
  import opened Wrappers
  import opened Sorting
  import opened Questions

  type Time = int

  datatype Doc = Atom(text: string) | Number(n: int) | Record(fields: map<string, Doc>)

  /** `time` is the document's "@timestamp", which no merge or stamp overwrites. */
  datatype TelemetryEvent = TelemetryEvent(id: string, time: Time, document: Doc)

  datatype Seed = Seed(id: string, document: Doc)

  datatype Plan = Plan(powershell: bool, totalEvents: int, rangeMinutes: int, seed: string, anchor: Time)

  datatype ExpandError = InvalidPlan | InvalidSeed(index: nat) | TooFewEvents

  // ----- Documents -----

  /** Records merge key by key; anything else on the right replaces the left. */
  function DeepMerge(left: Doc, right: Doc): Doc
    decreases right
  {
    if left.Record? && right.Record? then
      Record(map k | k in left.fields.Keys + right.fields.Keys ::
        if k !in right.fields then left.fields[k]
        else if k in left.fields then DeepMerge(left.fields[k], right.fields[k])
        else right.fields[k])
    else right
  }

  function FieldsOf(d: Doc): map<string, Doc> { if d.Record? then d.fields else map[] }

  function Sub(d: Doc, name: string): map<string, Doc> {
    if name in FieldsOf(d) then FieldsOf(FieldsOf(d)[name]) else map[]
  }

  const EVENT := "event"
  const ZEROTOP := "zerotop"

  function Normalized(id: string, d: Doc): Doc {
    var event := map["kind" := Atom("event")] + Sub(d, EVENT) + map["id" := Atom(id)];
    Record(FieldsOf(d)[EVENT := Record(event)])
  }

  function Stamped(e: TelemetryEvent, sequence: nat, anchor: Time): TelemetryEvent {
    var event := Record(Sub(e.document, EVENT)["id" := Atom(e.id)]);
    var zerotop := Record(Sub(e.document, ZEROTOP)["scenario_event_id" := Atom(e.id)]["sequence" := Number(sequence)]
                            ["generated_at" := Number(anchor)]["source" := Atom("scenario_log_generator")]);
    e.(document := Record(FieldsOf(e.document)[EVENT := event][ZEROTOP := zerotop]))
  }

  // ----- Random numbers -----

  const STEP := 0x6D2B79F5

  /** The accumulator grows without wrapping; each use takes its low 32 bits. */
  function Mixed(state: nat): bv32 { Mix((state % 0x1_0000_0000) as bv32) }

  function Mix(s: bv32): bv32 {
    var a := (s ^ (s >> 15)) * (s | 1);
    var b := a ^ (a + (a ^ (a >> 7)) * (a | 61));
    b ^ (b >> 14)
  }

  type Fraction = r: real | 0.0 <= r < 1.0 witness 0.0

  function Drawn(state: nat): Fraction {
    (Mixed(state) as int) as real / 4294967296.0
  }

  /** Where random numbers come from: a starting state and the number each state yields. */
  datatype Source = Source(state: nat, draw: nat -> Fraction)

  function SeededSource(state: nat): Source { Source(state, Drawn) }

  /** The accumulator that `seededRandom` closes over. */
  class SeededRandom {
    var state: nat
    const draw: nat -> Fraction

    constructor (source: Source)
      ensures state == source.state && draw == source.draw
    {
      state := source.state;
      draw := source.draw;
    }

    method Next() returns (r: Fraction)
      modifies this
      ensures state == old(state) + STEP
      ensures r == draw(state)
    {
      state := state + STEP;
      r := draw(state);
    }
  }

  // ----- Signals -----

  const POWERSHELL_IDS := ["signal-web-rce-probe", "signal-webshell-powershell", "signal-powershell-recon",
                           "signal-sensitive-file-read", "signal-archive-created", "signal-outbound-exfiltration"]

  /** 13, 12.6, 11.8, 10.4, 8.5 and 6.3 minutes. */
  const POWERSHELL_OFFSETS := [780000, 756000, 708000, 624000, 510000, 378000]

  function PowershellSignals(anchor: Time): (events: seq<TelemetryEvent>)
    ensures |events| == 6
  {
    seq(6, i requires 0 <= i < 6 =>
      TelemetryEvent(POWERSHELL_IDS[i], anchor - POWERSHELL_OFFSETS[i], Record(map[EVENT := Record(map["kind" := Atom("event")])])))
  }

  /** `14 - ((index % 8) * 0.72)` minutes. */
  function SeedOffset(index: nat): (ms: int)
    ensures 500000 <= ms <= 840000
  {
    840000 - (index % 8) * 43200
  }

  /** Setting a `Map` entry: a known identifier keeps its place and its time. */
  function SetSignal(signals: seq<TelemetryEvent>, s: Seed, time: Time): seq<TelemetryEvent> {
    if signals == [] then [TelemetryEvent(s.id, time, Normalized(s.id, s.document))]
    else if signals[0].id == s.id then
      [TelemetryEvent(s.id, signals[0].time, Normalized(s.id, DeepMerge(signals[0].document, s.document)))] + signals[1..]
    else [signals[0]] + SetSignal(signals[1..], s, time)
  }

  function SignalsOf(plan: Plan, seeds: seq<Seed>): seq<TelemetryEvent> {
    if seeds == [] then if plan.powershell then PowershellSignals(plan.anchor) else []
    else
      var last := |seeds| - 1;
      SetSignal(SignalsOf(plan, seeds[..last]), seeds[last], plan.anchor - SeedOffset(last))
  }

  // ----- Background -----

  datatype Kind = Authentication | Process | Network | File | Web | PowerShell

  function KindAt(percentile: int): Kind {
    if percentile < 23 then Authentication
    else if percentile < 47 then Process
    else if percentile < 66 then Network
    else if percentile < 79 then File
    else if percentile < 93 then Web
    else PowerShell
  }

  function Draws(kind: Kind): nat { if kind == Network || kind == Web then 2 else 1 }

  function Skipped(state: nat, draws: nat): nat { if draws == 0 then state else Skipped(state, draws - 1) + STEP }

  /** The last `width` decimal digits, with leading zeros. */
  function Padded(n: nat, width: nat): (s: string)
    ensures |s| == width
  {
    if width == 0 then "" else Padded(n / 10, width - 1) + [Digit(n % 10)]
  }

  function Digit(n: int): char
    requires 0 <= n < 10
  {
    ('0' as int + n) as char
  }

  function EventId(index: nat): string { "evt-" + Padded(index + 1, 5) }

  /** `new Date(ms)` drops the fraction of a millisecond. */
  function Truncated(x: real): int { if x >= 0.0 then x.Floor else -((-x).Floor) }

  function Interval(count: nat, rangeMinutes: nat): real {
    (rangeMinutes * 60000) as real / (if count < 1 then 1 else count) as real
  }

  function Jitter(interval: real, r: real): real {
    if interval < 2500.0 then r * interval else r * 2500.0
  }

  function Slot(index: nat, interval: real): real { index as real * interval }

  function ExactTime(index: nat, count: nat, anchor: Time, rangeMinutes: nat, r: real): real {
    (anchor - rangeMinutes * 60000) as real + Slot(index, Interval(count, rangeMinutes)) + Jitter(Interval(count, rangeMinutes), r)
  }

  function BackgroundTime(index: nat, count: nat, anchor: Time, rangeMinutes: nat, r: real): Time {
    Truncated(ExactTime(index, count, anchor, rangeMinutes, r))
  }

  function BackgroundKind(index: nat, r: real): Kind {
    KindAt((index * 37 + (r * 100.0).Floor) % 100)
  }

  function BackgroundDocument(id: string, kind: Kind): Doc {
    var category := match kind
      case Authentication => "authentication"
      case Network => "network"
      case File => "file"
      case Web => "web"
      case _ => "process";
    Normalized(id, Record(map[EVENT := Record(map["kind" := Atom("event"), "category" := Atom(category)])]))
  }

  /** What the random numbers decide about one event: where in its slot it lies and
      of which kind it is. */
  datatype Placement = Placement(within: Fraction, kind: Kind)

  datatype Drawing = Drawing(placements: seq<Placement>, state: nat)

  function PlacementAt(draw: nat -> Fraction, state: nat, index: nat): Placement {
    Placement(draw(state + STEP), BackgroundKind(index, draw(state + STEP + STEP)))
  }

  function StateAfter(state: nat, kind: Kind): nat { Skipped(state + STEP + STEP, Draws(kind)) }

  /** `n` placements, each drawn from the state the one before left behind. */
  function DrawingOf(source: Source, n: nat): (d: Drawing)
    ensures |d.placements| == n
  {
    if n == 0 then Drawing([], source.state)
    else
      var earlier := DrawingOf(source, n - 1);
      var next := PlacementAt(source.draw, earlier.state, n - 1);
      Drawing(earlier.placements + [next], StateAfter(earlier.state, next.kind))
  }

  /** The time of event `index` of `count`, given its random place in its slot. */
  type Clock = (nat, nat, Fraction) -> Time

  function PlanClock(plan: Plan): Clock
    requires plan.rangeMinutes >= 0
  {
    (index: nat, count: nat, r: Fraction) => BackgroundTime(index, count, plan.anchor, plan.rangeMinutes, r)
  }

  function BackgroundEvent(index: nat, count: nat, clock: Clock, p: Placement): TelemetryEvent {
    TelemetryEvent(EventId(index), clock(index, count, p.within), BackgroundDocument(EventId(index), p.kind))
  }

  /** The first of `count` background events. */
  function BackgroundSoFar(placements: seq<Placement>, count: nat, clock: Clock): (events: seq<TelemetryEvent>)
    ensures |events| == |placements|
  {
    seq(|placements|, i requires 0 <= i < |placements| => BackgroundEvent(i, count, clock, placements[i]))
  }

  function Background(placements: seq<Placement>, clock: Clock): (events: seq<TelemetryEvent>)
    ensures |events| == |placements|
  {
    BackgroundSoFar(placements, |placements|, clock)
  }

  lemma BackgroundStep(placements: seq<Placement>, p: Placement, count: nat, clock: Clock)
    ensures BackgroundSoFar(placements + [p], count, clock)
         == BackgroundSoFar(placements, count, clock) + [BackgroundEvent(|placements|, count, clock, p)]
  {}

  // ----- Order -----

  /** By time, then by identifier. */
  predicate Earlier(collate: (string, string) -> bool, a: TelemetryEvent, b: TelemetryEvent) {
    a.time < b.time || (a.time == b.time && collate(a.id, b.id))
  }

  function Before(collate: (string, string) -> bool): (TelemetryEvent, TelemetryEvent) -> bool {
    (a: TelemetryEvent, b: TelemetryEvent) => Earlier(collate, a, b)
  }

  /** `localeCompare` as far as it matters: a total order of strings in which numbers
      of equal width come in numeric order. */
  ghost predicate Collation(collate: (string, string) -> bool) {
    && StrictTotalOrder(collate)
    && forall i, j :: 0 <= i < j < 99999 ==> collate(EventId(i), EventId(j))
  }

  // ----- Expansion -----

  predicate ValidPlan(p: Plan) {
    100 <= p.totalEvents <= 5000 && 15 <= p.rangeMinutes <= 240 && Identifier(p.seed, 128)
  }

  predicate ValidSeed(s: Seed) { Identifier(s.id, 128) && s.document.Record? }

  function FirstInvalid(seeds: seq<Seed>): Option<nat> {
    if seeds == [] then None
    else
      var last := |seeds| - 1;
      var earlier := FirstInvalid(seeds[..last]);
      if earlier.Some? then earlier else if ValidSeed(seeds[last]) then None else Some(last)
  }

  function Combined(plan: Plan, seeds: seq<Seed>, source: Source, clock: Clock): seq<TelemetryEvent>
    requires |SignalsOf(plan, seeds)| <= plan.totalEvents
  {
    Background(DrawingOf(source, plan.totalEvents - |SignalsOf(plan, seeds)|).placements, clock) + SignalsOf(plan, seeds)
  }

  function Sequenced(events: seq<TelemetryEvent>, anchor: Time): (r: seq<TelemetryEvent>)
    ensures |r| == |events|
  {
    seq(|events|, k requires 0 <= k < |events| => Stamped(events[k], k, anchor))
  }

  function ExpandWith(plan: Plan, seeds: seq<Seed>, source: Source, collate: (string, string) -> bool, clock: Clock)
    : Result<seq<TelemetryEvent>, ExpandError>
  {
    if FirstInvalid(seeds).Some? then Err(InvalidSeed(FirstInvalid(seeds).value))
    else if |SignalsOf(plan, seeds)| > plan.totalEvents then Err(TooFewEvents)
    else Ok(Sequenced(Sort(Combined(plan, seeds, source, clock), Before(collate)), plan.anchor))
  }

  function Expand(plan: Plan, seeds: seq<Seed>, source: Source, collate: (string, string) -> bool)
    : Result<seq<TelemetryEvent>, ExpandError>
  {
    if !ValidPlan(plan) then Err(InvalidPlan) else ExpandWith(plan, seeds, source, collate, PlanClock(plan))
  }

  /** The expansion as it runs: a map of signals filled seed by seed, background drawn
      from one random sequence, one sort, one numbering. */
  method ExpandBlueTelemetryEvents(plan: Plan, seeds: seq<Seed>, state: nat, collate: (string, string) -> bool)
    returns (r: Result<seq<TelemetryEvent>, ExpandError>)
    ensures r == Expand(plan, seeds, SeededSource(state), collate)
  {
    if !ValidPlan(plan) { return Err(InvalidPlan); }
    r := ExpandValidPlan(plan, seeds, SeededSource(state), collate, PlanClock(plan));
  }

  method ExpandValidPlan(plan: Plan, seeds: seq<Seed>, source: Source, collate: (string, string) -> bool, clock: Clock)
    returns (r: Result<seq<TelemetryEvent>, ExpandError>)
    ensures r == ExpandWith(plan, seeds, source, collate, clock)
  {
    var signals := if plan.powershell then PowershellSignals(plan.anchor) else [];
    for i := 0 to |seeds|
      invariant FirstInvalid(seeds[..i]).None?
      invariant signals == SignalsOf(plan, seeds[..i])
    {
      InvalidPrefix(seeds, i);
      assert seeds[..i + 1][..i] == seeds[..i];
      if !ValidSeed(seeds[i]) { return Err(InvalidSeed(i)); }
      signals := SetSignal(signals, seeds[i], plan.anchor - SeedOffset(i));
    }
    assert seeds[..|seeds|] == seeds;
    if |signals| > plan.totalEvents { return Err(TooFewEvents); }
    var background := DrawBackground(source, plan.totalEvents - |signals|, clock);
    var sorted := Sort(background + signals, Before(collate));
    r := Ok(Sequenced(sorted, plan.anchor));
  }

  method SkipNumbers(random: SeededRandom, draws: nat)
    modifies random
    ensures random.state == Skipped(old(random.state), draws)
  {
    for k := 0 to draws
      invariant random.state == Skipped(old(random.state), k)
    {
      var _ := random.Next();
    }
  }

  method DrawPlacement(random: SeededRandom, index: nat) returns (p: Placement)
    modifies random
    ensures p == PlacementAt(random.draw, old(random.state), index)
    ensures random.state == StateAfter(old(random.state), p.kind)
  {
    var first := random.Next();
    var second := random.Next();
    p := Placement(first, BackgroundKind(index, second));
    SkipNumbers(random, Draws(p.kind));
  }

  method DrawBackground(source: Source, count: nat, clock: Clock) returns (events: seq<TelemetryEvent>)
    ensures events == Background(DrawingOf(source, count).placements, clock)
  {
    var random := new SeededRandom(source);
    events := [];
    ghost var placements: seq<Placement> := [];
    for n := 0 to count
      invariant random.draw == source.draw
      invariant Drawing(placements, random.state) == DrawingOf(source, n)
      invariant |placements| == n && events == BackgroundSoFar(placements, count, clock)
    {
      var p := DrawPlacement(random, n);
      BackgroundStep(placements, p, count, clock);
      events := events + [BackgroundEvent(n, count, clock, p)];
      placements := placements + [p];
    }
  }

  lemma {:induction false} InvalidPrefix(seeds: seq<Seed>, i: nat)
    requires i < |seeds| && FirstInvalid(seeds[..i]).None?
    ensures !ValidSeed(seeds[i]) ==> FirstInvalid(seeds) == Some(i)
    ensures ValidSeed(seeds[i]) ==> FirstInvalid(seeds[..i + 1]).None?
    decreases |seeds|
  {
    assert seeds[..i + 1][..i] == seeds[..i];
    if i + 1 < |seeds| {
      var shorter := seeds[..|seeds| - 1];
      assert shorter[..i] == seeds[..i] && shorter[..i + 1] == seeds[..i + 1];
      InvalidPrefix(shorter, i);
    } else {
      assert seeds[..i + 1] == seeds;
    }
  }
}
