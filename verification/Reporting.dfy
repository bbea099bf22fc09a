/** Capability reports and rankings over a dataset of graded evidence. Points are
    integers, ratios exact reals, rounding is `floor(x + 1/2)`. */
module Reporting {
  import opened Wrappers
  import opened Sorting
  import opened Sequences
  import opened Rounding

  type Id = string
  type Time = int

  datatype Difficulty = Beginner | Intermediate | Advanced | Expert

  datatype SkillPoints = SkillPoints(key: string, points: int, maxPoints: int)

  datatype Item = Item(
    userId: Id, organizationId: Option<Id>, points: int, maxPoints: int, completedAt: Time, skills: seq<SkillPoints>,
    difficulty: Difficulty, hintsUsed: int, durationSeconds: Option<int>, ttlSeconds: int)

  datatype User = User(id: Id, handle: string, organizationId: Option<Id>, globalRankingOptIn: bool)

  datatype Window = Window(start: Time, end: Time)

  // ----- Scores -----

  function Percent(points: int, maxPoints: int): int {
    if maxPoints <= 0 then 0
    else
      var rounded := Round(points as real / maxPoints as real * 100.0);
      if rounded < 0 then 0 else if rounded > 100 then 100 else rounded
  }

  predicate ValidItem(item: Item) { item.maxPoints > 0 && item.points >= 0 }

  function FilteredPoints(skills: seq<SkillPoints>, keys: set<string>): (int, int) {
    if skills == [] then (0, 0)
    else
      var earlier := FilteredPoints(skills[..|skills| - 1], keys);
      var last := skills[|skills| - 1];
      if last.key in keys && last.maxPoints > 0 then (earlier.0 + last.points, earlier.1 + last.maxPoints) else earlier
  }

  /** Points and maximum of an item, within a domain when one is chosen. */
  function EvidencePoints(item: Item, keys: Option<set<string>>): (int, int) {
    if keys.None? then (item.points, item.maxPoints) else FilteredPoints(item.skills, keys.value)
  }

  method SumEvidencePoints(item: Item, keys: Option<set<string>>) returns (points: int, maxPoints: int)
    ensures (points, maxPoints) == EvidencePoints(item, keys)
  {
    if keys.None? { return item.points, item.maxPoints; }
    points, maxPoints := 0, 0;
    for i := 0 to |item.skills|
      invariant (points, maxPoints) == FilteredPoints(item.skills[..i], keys.value)
    {
      assert item.skills[..i + 1][..i] == item.skills[..i];
      var skill := item.skills[i];
      if skill.key in keys.value && skill.maxPoints > 0 {
        points := points + skill.points;
        maxPoints := maxPoints + skill.maxPoints;
      }
    }
    assert item.skills[..|item.skills|] == item.skills;
  }

  function BasePoints(d: Difficulty): int {
    match d
    case Beginner => 100
    case Intermediate => 250
    case _ => 500
  }

  const MAX_TIME_BONUS := 0.2
  const MAX_HINT_PENALTY := 0.2
  const HINT_PENALTY_PER_USE := 0.04

  function Clamp(x: real, low: real, high: real): real { if x < low then low else if x > high then high else x }

  function TimeMultiplier(item: Item): real {
    if item.ttlSeconds <= 0 || item.durationSeconds.None? || item.durationSeconds.value < 0 then 1.0
    else
      var used := item.durationSeconds.value as real / item.ttlSeconds as real;
      1.0 + MAX_TIME_BONUS * Clamp((1.0 - used) / 0.5, 0.0, 1.0)
  }

  function HintMultiplier(item: Item): real {
    var penalty := HINT_PENALTY_PER_USE * item.hintsUsed as real;
    1.0 - (if penalty < MAX_HINT_PENALTY then penalty else MAX_HINT_PENALTY)
  }

  function SeasonScore(item: Item, keys: Option<set<string>>): int {
    var scored := EvidencePoints(item, keys);
    if scored.1 <= 0 then 0
    else
      var accuracy := scored.0 as real / scored.1 as real;
      Round(BasePoints(item.difficulty) as real * accuracy * TimeMultiplier(item) * HintMultiplier(item))
  }

  // ----- Windows -----

  const DAY_MS := 86_400_000

  datatype Period = Weekly | Monthly | AllTime

  function ShiftWindow(w: Window): Window { Window(w.start - (w.end - w.start), w.start) }

  function PeriodWindow(period: Period, now: Time, offset: nat): Window {
    match period
    case AllTime => if offset == 0 then Window(0, now + 1) else Window(0, 0)
    case Weekly => Window(now - 7 * (offset + 1) * DAY_MS, now - 7 * offset * DAY_MS)
    case Monthly => Window(now - 30 * (offset + 1) * DAY_MS, now - 30 * offset * DAY_MS)
  }

  predicate Within(w: Window, t: Time) { w.start <= t < w.end }

  // ----- Ranking -----

  datatype Query = Query(window: Window, keys: Option<set<string>>)

  /** Which items count for a user in a window. */
  function CountsFor(userId: Id, w: Window): Item -> bool {
    (item: Item) => ValidItem(item) && item.userId == userId && Within(w, item.completedAt)
  }

  function Mine(evidence: seq<Item>, userId: Id, w: Window): seq<Item> { Filter(evidence, CountsFor(userId, w)) }

  function Scorer(keys: Option<set<string>>): Item -> int { (item: Item) => SeasonScore(item, keys) }

  function RawPoints(keys: Option<set<string>>): Item -> int { (item: Item) => EvidencePoints(item, keys).0 }

  function RawMaximum(keys: Option<set<string>>): Item -> int { (item: Item) => EvidencePoints(item, keys).1 }

  datatype Row = Row(userId: Id, handle: string, points: int, completedLabs: nat, accuracy: int)

  datatype Entry = Entry(rank: nat, row: Row)

  /** What a user's evidence amounts to under a query. */
  datatype Totals = Totals(points: int, completedLabs: nat, accuracy: int)

  function TotalsOf(evidence: seq<Item>, userId: Id, q: Query): Totals {
    var mine := Mine(evidence, userId, q.window);
    Totals(Sum(mine, Scorer(q.keys)), |mine|, Percent(Sum(mine, RawPoints(q.keys)), Sum(mine, RawMaximum(q.keys))))
  }

  function RowOf(user: User, t: Totals): Row { Row(user.id, user.handle, t.points, t.completedLabs, t.accuracy) }

  /** The rows of a user: one when any points were scored, none otherwise. */
  function RowsFor(evidence: seq<Item>, q: Query): User -> seq<Row> {
    (user: User) => var t := TotalsOf(evidence, user.id, q); if t.points > 0 then [RowOf(user, t)] else []
  }

  predicate Outranks(collate: (string, string) -> bool, a: Row, b: Row) {
    a.points > b.points
    || (a.points == b.points
        && (a.completedLabs > b.completedLabs || (a.completedLabs == b.completedLabs && collate(a.handle, b.handle))))
  }

  function RowOrder(collate: (string, string) -> bool): (Row, Row) -> bool { (a: Row, b: Row) => Outranks(collate, a, b) }

  /** Equal points share the rank of the first of them. */
  function RankAt(rows: seq<Row>, i: nat): nat
    requires i < |rows|
  {
    if i > 0 && rows[i - 1].points == rows[i].points then RankAt(rows, i - 1) else i + 1
  }

  function Ranked(rows: seq<Row>): (entries: seq<Entry>)
    ensures |entries| == |rows|
  {
    seq(|rows|, i requires 0 <= i < |rows| => Entry(RankAt(rows, i), rows[i]))
  }

  function RankWindow(users: seq<User>, evidence: seq<Item>, q: Query, collate: (string, string) -> bool): seq<Entry> {
    Ranked(Sort(Collect(users, RowsFor(evidence, q)), RowOrder(collate)))
  }

  /** One pass over a user's evidence, accumulating all three sums. */
  method AccumulateTotals(mine: seq<Item>, keys: Option<set<string>>) returns (points: int, raw: int, maximum: int)
    ensures points == Sum(mine, Scorer(keys))
    ensures raw == Sum(mine, RawPoints(keys))
    ensures maximum == Sum(mine, RawMaximum(keys))
  {
    points, raw, maximum := 0, 0, 0;
    for i := 0 to |mine|
      invariant points == Sum(mine[..i], Scorer(keys))
      invariant raw == Sum(mine[..i], RawPoints(keys))
      invariant maximum == Sum(mine[..i], RawMaximum(keys))
    {
      assert mine[..i + 1][..i] == mine[..i];
      var p, m := SumEvidencePoints(mine[i], keys);
      points := points + SeasonScore(mine[i], keys);
      raw := raw + p;
      maximum := maximum + m;
    }
    assert mine[..|mine|] == mine;
  }

  method RankUsers(users: seq<User>, evidence: seq<Item>, q: Query, collate: (string, string) -> bool)
    returns (entries: seq<Entry>)
    ensures entries == RankWindow(users, evidence, q, collate)
  {
    var rows: seq<Row> := [];
    for i := 0 to |users|
      invariant rows == Collect(users[..i], RowsFor(evidence, q))
    {
      assert users[..i + 1][..i] == users[..i];
      var mine := Mine(evidence, users[i].id, q.window);
      var points, raw, maximum := AccumulateTotals(mine, q.keys);
      if points > 0 { rows := rows + [Row(users[i].id, users[i].handle, points, |mine|, Percent(raw, maximum))]; }
    }
    assert users[..|users|] == users;
    entries := AssignRanks(Sort(rows, RowOrder(collate)));
  }

  /** A running rank that moves on only when the points change. */
  method AssignRanks(rows: seq<Row>) returns (entries: seq<Entry>)
    ensures entries == Ranked(rows)
  {
    entries := [];
    var rank := 0;
    var previousPoints: Option<int> := None;
    for i := 0 to |rows|
      invariant |entries| == i
      invariant forall j :: 0 <= j < i ==> entries[j] == Entry(RankAt(rows, j), rows[j])
      invariant previousPoints == if i == 0 then None else Some(rows[i - 1].points)
      invariant i > 0 ==> rank == RankAt(rows, i - 1)
    {
      if previousPoints != Some(rows[i].points) { rank := i + 1; }
      previousPoints := Some(rows[i].points);
      entries := entries + [Entry(rank, rows[i])];
    }
  }

  // ----- Viewer -----

  datatype Viewer = Viewer(
    rank: Option<nat>, totalParticipants: nat, topPercent: Option<real>, points: int, pointsDelta: int,
    completedLabs: nat, accuracy: int, streakDays: nat, bestStreakDays: nat)

  function FindEntry(entries: seq<Entry>, userId: Id): Option<Entry> {
    if entries == [] then None
    else if entries[0].row.userId == userId then Some(entries[0])
    else FindEntry(entries[1..], userId)
  }

  function TopPercent(rank: nat, total: nat): real
    requires total > 0
  {
    var share := Round(rank as real / total as real * 1000.0) as real / 10.0;
    if share < 0.1 then 0.1 else share
  }

  function TimesOf(evidence: seq<Item>): seq<Time> {
    seq(|evidence|, i requires 0 <= i < |evidence| => evidence[i].completedAt)
  }

  function AllMine(evidence: seq<Item>, userId: Id): seq<Item> {
    Filter(evidence, (item: Item) => ValidItem(item) && item.userId == userId)
  }

  /** Totals and streaks are those of the viewer's own evidence; the rank is the board's. */
  ghost predicate ViewerIs(v: Viewer, evidence: seq<Item>, userId: Option<Id>, current: Query, previous: Window,
                           entries: seq<Entry>, now: Time)
  {
    && v.totalParticipants == |entries|
    && (userId.None? ==> v == Viewer(None, |entries|, None, 0, 0, 0, 0, 0, 0))
    && (userId.Some? ==>
          var id := userId.value;
          var t := TotalsOf(evidence, id, current);
          var found := FindEntry(entries, id);
          && v.points == t.points && v.completedLabs == t.completedLabs && v.accuracy == t.accuracy
          && v.pointsDelta == t.points - TotalsOf(evidence, id, Query(previous, current.keys)).points
          && v.rank == (if found.Some? then Some(found.value.rank) else None)
          && v.topPercent == (if found.Some? && |entries| > 0 then Some(TopPercent(found.value.rank, |entries|)) else None)
          && var days := DaysOf(TimesOf(AllMine(evidence, id)));
             && Longest(days, v.bestStreakDays)
             && EndingAt(days, (if current.window.end < now then current.window.end else now) / DAY_MS, v.streakDays))
  }

  /** Recomputed from the evidence itself; only the rank is taken from the board. */
  method ViewerSummary(evidence: seq<Item>, userId: Option<Id>, current: Query, previous: Window, entries: seq<Entry>, now: Time)
    returns (v: Viewer)
    ensures ViewerIs(v, evidence, userId, current, previous, entries, now)
  {
    if userId.None? { return Viewer(None, |entries|, None, 0, 0, 0, 0, 0, 0); }
    var id := userId.value;
    var all := AllMine(evidence, id);
    var mine := Filter(all, CountsFor(id, current.window));
    FilterWithin(evidence, (item: Item) => ValidItem(item) && item.userId == id, CountsFor(id, current.window));
    var before := Filter(all, CountsFor(id, previous));
    FilterWithin(evidence, (item: Item) => ValidItem(item) && item.userId == id, CountsFor(id, previous));
    var points, raw, maximum := AccumulateTotals(mine, current.keys);
    var found := FindEntry(entries, id);
    var streak := CurrentStreak(TimesOf(all), if current.window.end < now then current.window.end else now);
    var best := LongestStreak(TimesOf(all));
    v := Viewer(
      if found.Some? then Some(found.value.rank) else None, |entries|,
      if found.Some? && |entries| > 0 then Some(TopPercent(found.value.rank, |entries|)) else None,
      points, points - Sum(before, Scorer(current.keys)), |mine|, Percent(raw, maximum), streak, best);
  }

  // ----- Boards -----

  datatype Scope = Global | OfOrganization(organizationId: Id)

  /** The global board is for users who opted in, an organization's for its members. */
  function Eligible(scope: Scope): User -> bool {
    (user: User) =>
      match scope
      case Global => user.globalRankingOptIn
      case OfOrganization(id) => user.organizationId == Some(id)
  }

  function ScopedWindow(users: seq<User>, evidence: seq<Item>, scope: Scope, q: Query, collate: (string, string) -> bool): seq<Entry> {
    RankWindow(Filter(users, Eligible(scope)), evidence, q, collate)
  }

  /** A running season replaces the rolling period. */
  function CurrentWindow(period: Period, season: Option<Window>, now: Time): Window {
    if season.Some? then season.value else PeriodWindow(period, now, 0)
  }

  function PreviousWindow(period: Period, season: Option<Window>, now: Time): Window {
    if season.Some? then ShiftWindow(season.value) else PeriodWindow(period, now, 1)
  }

  /** Of several entries of one user the last one counts. */
  function RankMap(entries: seq<Entry>): map<Id, nat> {
    if entries == [] then map[]
    else
      var last := entries[|entries| - 1];
      RankMap(entries[..|entries| - 1])[last.row.userId := last.rank]
  }

  /** Places gained since the previous board, or 0 for a user who was not on it. */
  function Change(ranks: map<Id, nat>, e: Entry): int {
    if e.row.userId in ranks then ranks[e.row.userId] - e.rank else 0
  }

  datatype BoardEntry = BoardEntry(entry: Entry, change: int)

  datatype Board = Board(entries: seq<BoardEntry>, viewer: Viewer)

  datatype BoardError = OrganizationRequired

  function Changed(entries: seq<Entry>, previous: seq<Entry>): (changed: seq<BoardEntry>)
    ensures |changed| == |entries|
  {
    seq(|entries|, i requires 0 <= i < |entries| => BoardEntry(entries[i], Change(RankMap(previous), entries[i])))
  }

  method CollectRanks(entries: seq<Entry>) returns (ranks: map<Id, nat>)
    ensures ranks == RankMap(entries)
  {
    ranks := map[];
    for i := 0 to |entries|
      invariant ranks == RankMap(entries[..i])
    {
      assert entries[..i + 1][..i] == entries[..i];
      ranks := ranks[entries[i].row.userId := entries[i].rank];
    }
    assert entries[..|entries|] == entries;
  }

  /** `ranking`: the board of a scope, how each place changed, and the viewer's summary. */
  method Ranking(users: seq<User>, evidence: seq<Item>, scope: Scope, period: Period, season: Option<Window>,
                 keys: Option<set<string>>, viewer: Option<Id>, now: Time, collate: (string, string) -> bool)
    returns (r: Result<Board, BoardError>)
    ensures r.Err? <==> scope == OfOrganization("")
    ensures var current, previous := CurrentWindow(period, season, now), PreviousWindow(period, season, now);
            var entries := ScopedWindow(users, evidence, scope, Query(current, keys), collate);
            r.Ok? ==>
              && r.value.entries == Changed(entries, ScopedWindow(users, evidence, scope, Query(previous, keys), collate))
              && ViewerIs(r.value.viewer, evidence, viewer, Query(current, keys), previous, entries, now)
  {
    if scope == OfOrganization("") { return Err(OrganizationRequired); }
    var current, previous := CurrentWindow(period, season, now), PreviousWindow(period, season, now);
    var eligible := Filter(users, Eligible(scope));
    var entries := RankUsers(eligible, evidence, Query(current, keys), collate);
    var before := RankUsers(eligible, evidence, Query(previous, keys), collate);
    var ranks := CollectRanks(before);
    var changed := seq(|entries|, i requires 0 <= i < |entries| => BoardEntry(entries[i], Change(ranks, entries[i])));
    var summary := ViewerSummary(evidence, viewer, Query(current, keys), previous, entries, now);
    r := Ok(Board(changed, summary));
  }

  // ----- Streaks -----

  function DaysOf(times: seq<Time>): set<int> { set t | t in times :: t / DAY_MS }

  /** `n` consecutive days from `start` on are all active. */
  ghost predicate Streak(days: set<int>, start: int, n: nat) {
    forall k :: start <= k < start + n ==> k in days
  }

  /** A run of exactly this length exists, and none is longer. */
  ghost predicate Longest(days: set<int>, n: nat) {
    && (exists start :: Streak(days, start, n))
    && forall start, m: nat :: Streak(days, start, m) ==> m <= n
  }

  /** The longest run that ends today, or yesterday when today is not active yet. */
  ghost predicate EndingAt(days: set<int>, today: int, n: nat) {
    var last := if today in days then today else today - 1;
    Streak(days, last - n + 1, n) && last - n !in days
  }

  function DayList(times: seq<Time>): seq<int> {
    seq(|times|, i requires 0 <= i < |times| => times[i] / DAY_MS)
  }

  predicate Less(a: int, b: int) { a < b }

  lemma SortedDays(times: seq<Time>)
    ensures Ascending(Sort(Deduplicated(DayList(times)), Less), Less)
    ensures forall d :: d in Sort(Deduplicated(DayList(times)), Less) <==> d in DaysOf(times)
  {
    var list := DayList(times);
    DeduplicatedDistinct(list);
    SortAscending(Deduplicated(list), Less);
    SortMembers(Deduplicated(list), Less);
    forall d ensures d in list <==> d in DaysOf(times) {
      if d in DaysOf(times) {
        var i :| 0 <= i < |times| && times[i] / DAY_MS == d;
        assert list[i] == d;
      }
      if d in list {
        var i :| 0 <= i < |list| && list[i] == d;
        assert times[i] in times && times[i] / DAY_MS == d;
      }
    }
  }

  method LongestStreak(times: seq<Time>) returns (best: nat)
    ensures Longest(DaysOf(times), best)
  {
    var days := Sort(Deduplicated(DayList(times)), Less);
    SortedDays(times);
    ghost var all := DaysOf(times);
    best := 0;
    var run := 0;
    var previous: Option<int> := None;
    assert Streak(all, 0, 0);
    for i := 0 to |days|
      invariant previous == if i == 0 then None else Some(days[i - 1])
      invariant i == 0 ==> run == 0
      invariant i > 0 ==> RunEnds(days, i, run)
      invariant BestSoFar(days, all, i, best)
    {
      RunStep(days, i, run);
      run := if previous != None && days[i] == previous.value + 1 then run + 1 else 1;
      previous := Some(days[i]);
      BestStep(days, all, i, run, best);
      if run > best { best := run; }
    }
    forall start, m: nat | Streak(all, start, m) ensures m <= best {
      if m > 0 { LastDay(days, all, start, m); }
    }
  }

  /** The last `run` of the first `i` days are consecutive, and the day before them is absent. */
  ghost predicate RunEnds(days: seq<int>, i: nat, run: nat)
    requires i <= |days|
  {
    && 0 < run <= i
    && (forall j :: i - run <= j < i ==> days[j] == days[i - 1] - (i - 1 - j))
    && (i > run ==> days[i - 1 - run] < days[i - 1] - run)
  }

  /** `best` is the longest streak among the first `i` days. */
  ghost predicate BestSoFar(days: seq<int>, all: set<int>, i: nat, best: nat)
    requires i <= |days|
  {
    && (exists start :: Streak(all, start, best))
    && (i == 0 ==> best == 0)
    && forall start, m: nat :: i > 0 && m > 0 && Streak(all, start, m) && start + m - 1 <= days[i - 1] ==> m <= best
  }

  lemma RunStep(days: seq<int>, i: nat, run: nat)
    requires Ascending(days, Less) && i < |days|
    requires i > 0 ==> RunEnds(days, i, run)
    ensures RunEnds(days, i + 1, if i > 0 && days[i] == days[i - 1] + 1 then run + 1 else 1)
  {
    if i > 0 { assert Less(days[i - 1], days[i]); }
  }

  lemma BestStep(days: seq<int>, all: set<int>, i: nat, run: nat, best: nat)
    requires Ascending(days, Less) && (forall d :: d in days <==> d in all)
    requires i < |days| && RunEnds(days, i + 1, run) && BestSoFar(days, all, i, best)
    ensures BestSoFar(days, all, i + 1, if run > best then run else best)
  {
    RunIsStreak(days, i + 1, run, all);
    forall start, m: nat | m > 0 && Streak(all, start, m) && start + m - 1 <= days[i]
      ensures m <= (if run > best then run else best)
    {
      StreakThrough(days, i, run, best, all, start, m);
    }
  }

  lemma RunIsStreak(days: seq<int>, i: nat, run: nat, all: set<int>)
    requires 0 < i <= |days| && RunEnds(days, i, run)
    requires forall d :: d in days <==> d in all
    ensures Streak(all, days[i - 1] - run + 1, run)
  {
    forall k | days[i - 1] - run + 1 <= k < days[i - 1] + 1 ensures k in all {
      var j := i - 1 - (days[i - 1] - k);
      assert days[j] == k;
    }
  }

  lemma AbsentBefore(days: seq<int>, i: nat, run: nat, all: set<int>)
    requires Ascending(days, Less) && i < |days| && RunEnds(days, i + 1, run)
    requires forall d :: d in days <==> d in all
    ensures days[i] - run !in all
  {
    forall j | 0 <= j < |days| ensures days[j] != days[i] - run {
      if j < i - run { assert Less(days[j], days[i - run]); }
      if j > i { assert Less(days[i], days[j]); }
    }
  }

  /** A streak reaching the i-th day lies within the current run; one that stops
      earlier was counted before. */
  lemma StreakThrough(days: seq<int>, i: nat, run: nat, best: nat, all: set<int>, start: int, m: nat)
    requires Ascending(days, Less) && i < |days| && RunEnds(days, i + 1, run)
    requires forall d :: d in days <==> d in all
    requires Streak(all, start, m) && m > 0 && start + m - 1 <= days[i]
    requires BestSoFar(days, all, i, best)
    ensures m <= run || m <= best
  {
    assert start + m - 1 in all;
    var at :| 0 <= at < |days| && days[at] == start + m - 1;
    if at < i {
      if at < i - 1 { assert Less(days[at], days[i - 1]); }
    } else {
      assert forall j :: i < j < |days| ==> Less(days[i], days[j]);
      var day := days[i];
      assert m > run ==> start <= day - run;
      AbsentBefore(days, i, run, all);
    }
  }

  lemma LastDay(days: seq<int>, all: set<int>, start: int, m: nat)
    requires Ascending(days, Less) && m > 0 && Streak(all, start, m)
    requires forall d :: d in days <==> d in all
    ensures days != [] && start + m - 1 <= days[|days| - 1]
  {
    assert start + m - 1 in all;
    var at :| 0 <= at < |days| && days[at] == start + m - 1;
    if at < |days| - 1 { assert Less(days[at], days[|days| - 1]); }
  }

  function UpTo(days: set<int>, last: int): set<int> { set d | d in days && d <= last }

  method CurrentStreak(times: seq<Time>, now: Time) returns (streak: nat)
    ensures EndingAt(DaysOf(times), now / DAY_MS, streak)
  {
    var days := DaysOf(times);
    var cursor := now / DAY_MS;
    if cursor !in days { cursor := cursor - 1; }
    ghost var last := cursor;
    streak := 0;
    while cursor in days
      invariant cursor == last - streak
      invariant Streak(days, cursor + 1, streak)
      decreases UpTo(days, cursor)
    {
      assert cursor in UpTo(days, cursor) && cursor !in UpTo(days, cursor - 1);
      streak := streak + 1;
      cursor := cursor - 1;
    }
  }
}
