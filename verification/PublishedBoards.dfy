/** The boards in terms of what is published: who appears where, what counts for whom, in
    which order, and what the numbers shown amount to. */
module PublishedBoards {
  import opened Wrappers
  import opened Sorting
  import opened Sequences
  import opened Rounding
  import opened Reporting
  import opened Rankings
  import opened SeasonPolicy

  // ----- Who appears -----

  lemma FoundIff(users: seq<User>, evidence: seq<Item>, scope: Scope, q: Query, collate: (string, string) -> bool, i: nat)
    requires UniqueIds(users) && i < |users|
    ensures FindEntry(ScopedWindow(users, evidence, scope, q, collate), users[i].id).Some?
       <==> Eligible(scope)(users[i]) && TotalsOf(evidence, users[i].id, q).points > 0
  {
    var eligible, id := Filter(users, Eligible(scope)), users[i].id;
    FilterMembers(users, Eligible(scope));
    if !Eligible(scope)(users[i]) {
      NotEligibleNotListed(users, evidence, scope, q, collate, i);
    } else if Scores(evidence, id, q) {
      assert users[i] in eligible;
      var k :| 0 <= k < |eligible| && eligible[k] == users[i];
      ScoringViewerIsRanked(eligible, evidence, q, collate, k);
    } else {
      NotScoringNotListed(eligible, evidence, q, collate, id);
    }
  }

  lemma NotScoringNotListed(users: seq<User>, evidence: seq<Item>, q: Query, collate: (string, string) -> bool, id: Id)
    requires !Scores(evidence, id, q)
    ensures FindEntry(RankWindow(users, evidence, q, collate), id).None?
  {
    var entries := RankWindow(users, evidence, q, collate);
    ListedExactly(users, evidence, q, collate);
    FoundEntry(entries, id);
    forall k | 0 <= k < |entries| ensures entries[k].row.userId != id {
      var row := RowsOf(entries)[k];
      assert row == entries[k].row && row in RowsOf(entries);
      var j :| 0 <= j < |users| && Scores(evidence, users[j].id, q) && row == RowOf(users[j], TotalsOf(evidence, users[j].id, q));
      assert row.userId == users[j].id;
    }
  }

  /** On the global board a user appears exactly after opting in and scoring. */
  lemma GlobalBoard(users: seq<User>, evidence: seq<Item>, q: Query, collate: (string, string) -> bool, i: nat)
    requires UniqueIds(users) && i < |users|
    ensures FindEntry(ScopedWindow(users, evidence, Global, q, collate), users[i].id).Some?
       <==> users[i].globalRankingOptIn && TotalsOf(evidence, users[i].id, q).points > 0
  {
    FoundIff(users, evidence, Global, q, collate, i);
  }

  /** On an organization's board a user appears exactly as a member who scored. */
  lemma OrganizationBoard(users: seq<User>, evidence: seq<Item>, id: Id, q: Query, collate: (string, string) -> bool, i: nat)
    requires UniqueIds(users) && i < |users|
    ensures FindEntry(ScopedWindow(users, evidence, OfOrganization(id), q, collate), users[i].id).Some?
       <==> users[i].organizationId == Some(id) && TotalsOf(evidence, users[i].id, q).points > 0
  {
    FoundIff(users, evidence, OfOrganization(id), q, collate, i);
  }

  /** Nobody appears who is not a user. */
  lemma OnlyUsers(users: seq<User>, evidence: seq<Item>, scope: Scope, q: Query, collate: (string, string) -> bool, k: nat)
    requires k < |ScopedWindow(users, evidence, scope, q, collate)|
    ensures exists i :: 0 <= i < |users| && users[i].id == ScopedWindow(users, evidence, scope, q, collate)[k].row.userId
                        && (scope == Global ==> users[i].globalRankingOptIn)
                        && (scope.OfOrganization? ==> users[i].organizationId == Some(scope.organizationId))
  {
    var owner := EntryOwner(users, evidence, scope, q, collate, k);
    assert users[owner].id == ScopedWindow(users, evidence, scope, q, collate)[k].row.userId;
  }

  // ----- What counts -----

  /** One more item counts for exactly its own user, when it is valid and was completed in
      the window: one lab more and the item's season score. */
  lemma OneMoreItem(evidence: seq<Item>, item: Item, userId: Id, q: Query)
    ensures var before, after := TotalsOf(evidence, userId, q), TotalsOf(evidence + [item], userId, q);
            if CountsIn(item, userId, q.window)
            then after.points == before.points + SeasonScore(item, q.keys) && after.completedLabs == before.completedLabs + 1
            else after == before
  {
    var more := evidence + [item];
    assert more[..|more| - 1] == evidence;
    var mine := Mine(evidence, userId, q.window);
    if CountsFor(userId, q.window)(item) { assert (mine + [item])[..|mine|] == mine; }
  }

  predicate CountsIn(item: Item, userId: Id, w: Window) {
    item.userId == userId && item.maxPoints > 0 && item.points >= 0 && w.start <= item.completedAt < w.end
  }

  /** The plain points and maximum of all that counts. */
  function Earned(evidence: seq<Item>, userId: Id, q: Query): (int, int) {
    if evidence == [] then (0, 0)
    else
      var earlier, last := Earned(evidence[..|evidence| - 1], userId, q), evidence[|evidence| - 1];
      if CountsIn(last, userId, q.window)
      then (earlier.0 + EvidencePoints(last, q.keys).0, earlier.1 + EvidencePoints(last, q.keys).1) else earlier
  }

  lemma {:induction false} EarnedIs(evidence: seq<Item>, userId: Id, q: Query)
    ensures var mine := Mine(evidence, userId, q.window);
            Earned(evidence, userId, q) == (Sum(mine, RawPoints(q.keys)), Sum(mine, RawMaximum(q.keys)))
  {
    if evidence != [] {
      var last := |evidence| - 1;
      EarnedIs(evidence[..last], userId, q);
      if CountsFor(userId, q.window)(evidence[last]) {
        var earlier := Mine(evidence[..last], userId, q.window);
        assert (earlier + [evidence[last]])[..|earlier|] == earlier;
      }
    }
  }

  /** The accuracy is the percentage of the plain points, without bonus or penalty. */
  lemma AccuracyIs(evidence: seq<Item>, userId: Id, q: Query)
    ensures TotalsOf(evidence, userId, q).accuracy == Percent(Earned(evidence, userId, q).0, Earned(evidence, userId, q).1)
  {
    EarnedIs(evidence, userId, q);
  }

  lemma NothingYet(userId: Id, q: Query)
    ensures TotalsOf([], userId, q) == Totals(0, 0, 0)
  {}

  /** The accuracy shown is the rounded share of the points, kept between 0 and 100. */
  lemma PercentMeans(points: int, maximum: int)
    ensures maximum <= 0 ==> Percent(points, maximum) == 0
    ensures maximum > 0 && 0 <= points <= maximum ==>
              var exact := points as real / maximum as real * 100.0;
              exact - 0.5 < Percent(points, maximum) as real <= exact + 0.5
    ensures 0 <= Percent(points, maximum) <= 100
  {
    if maximum > 0 && 0 <= points <= maximum { ShareWithin(points, maximum); }
  }

  // ----- What a lab is worth -----

  /** Full marks without hints and without a time are worth 100 for beginners, 250 for
      intermediate labs and 500 above. */
  lemma Tiers(item: Item)
    requires item.points == item.maxPoints > 0 && item.hintsUsed == 0 && item.durationSeconds == None
    ensures item.difficulty == Beginner ==> SeasonScore(item, None) == 100
    ensures item.difficulty == Intermediate ==> SeasonScore(item, None) == 250
    ensures item.difficulty == Advanced || item.difficulty == Expert ==> SeasonScore(item, None) == 500
  {
    WholeAndHalf(item.maxPoints as real);
  }

  /** And a fifth more when solved within half of the time. */
  lemma FastTiers(item: Item, seconds: int)
    requires item.points == item.maxPoints > 0 && item.hintsUsed == 0
    requires item.durationSeconds == Some(seconds) && 0 <= 2 * seconds <= item.ttlSeconds && item.ttlSeconds > 0
    ensures item.difficulty == Beginner ==> SeasonScore(item, None) == 120
    ensures item.difficulty == Intermediate ==> SeasonScore(item, None) == 300
    ensures item.difficulty == Advanced || item.difficulty == Expert ==> SeasonScore(item, None) == 600
  {
    WholeAndHalf(item.maxPoints as real);
    TimeBonusIs(item);
  }

  /** Five hints or more cost a fifth. */
  lemma HintedTiers(item: Item)
    requires item.points == item.maxPoints > 0 && item.hintsUsed >= 5 && item.durationSeconds == None
    ensures item.difficulty == Beginner ==> SeasonScore(item, None) == 80
    ensures item.difficulty == Intermediate ==> SeasonScore(item, None) == 200
    ensures item.difficulty == Advanced || item.difficulty == Expert ==> SeasonScore(item, None) == 400
  {
    WholeAndHalf(item.maxPoints as real);
    HintPenaltyIs(item);
  }

  /** Within a domain only that domain's skills with a positive maximum count. */
  lemma {:induction false} OneMoreSkill(item: Item, skills: seq<SkillPoints>, keys: set<string>)
    requires item.skills == skills && skills != []
    ensures var last := skills[|skills| - 1];
            var earlier := EvidencePoints(item.(skills := skills[..|skills| - 1]), Some(keys));
            EvidencePoints(item, Some(keys))
            == if last.key in keys && last.maxPoints > 0 then (earlier.0 + last.points, earlier.1 + last.maxPoints) else earlier
  {}

  // ----- In which order -----

  /** More points first; among equal points more labs first; then by handle. Equal points
      share a rank, and fewer points rank lower. */
  lemma BoardOrder(users: seq<User>, evidence: seq<Item>, scope: Scope, q: Query, collate: (string, string) -> bool, i: nat, j: nat)
    requires StrictTotalOrder(collate) && i < j < |ScopedWindow(users, evidence, scope, q, collate)|
    ensures var entries := ScopedWindow(users, evidence, scope, q, collate);
            var a, b := entries[i], entries[j];
            && a.row.points >= b.row.points
            && (a.row.points == b.row.points ==>
                  && a.rank == b.rank && a.row.completedLabs >= b.row.completedLabs
                  && (a.row.completedLabs == b.row.completedLabs ==> !collate(b.row.handle, a.row.handle)))
            && (a.row.points > b.row.points ==> a.rank < b.rank)
  {
    var eligible := Filter(users, Eligible(scope));
    var entries := RankWindow(eligible, evidence, q, collate);
    SortedRows(eligible, evidence, q, collate);
    var rows := RowsOf(entries);
    assert !RowOrder(collate)(rows[j], rows[i]);
    RankCountsBetter(rows, i);
    RankCountsBetter(rows, j);
    if rows[i].points > rows[j].points { BetterGrows(rows, rows[i].points, rows[j].points, i); }
  }

  lemma {:induction false} BetterGrows(rows: seq<Row>, high: int, low: int, i: nat)
    requires i < |rows| && rows[i].points == high > low
    ensures Better(rows, high) < Better(rows, low)
    decreases |rows|
  {
    var last := |rows| - 1;
    if i < last {
      BetterGrows(rows[..last], high, low, i);
    } else {
      BetterMonotone(rows[..last], high, low);
    }
  }

  lemma {:induction false} BetterMonotone(rows: seq<Row>, high: int, low: int)
    requires high > low
    ensures Better(rows, high) <= Better(rows, low)
  {
    if rows != [] { BetterMonotone(rows[..|rows| - 1], high, low); }
  }

  // ----- Which days -----

  /** Weekly and monthly boards reach back 7 and 30 days from now; the all-time board holds
      everything up to now. */
  lemma PeriodsAre(now: Time, t: Time)
    ensures Within(PeriodWindow(Weekly, now, 0), t) <==> now - 7 * 24 * 3600 * 1000 <= t < now
    ensures Within(PeriodWindow(Monthly, now, 0), t) <==> now - 30 * 24 * 3600 * 1000 <= t < now
    ensures Within(PeriodWindow(AllTime, now, 0), t) <==> 0 <= t <= now
    ensures Within(PeriodWindow(Weekly, now, 1), t) <==> now - 14 * 24 * 3600 * 1000 <= t < now - 7 * 24 * 3600 * 1000
    ensures Within(PeriodWindow(Monthly, now, 1), t) <==> now - 60 * 24 * 3600 * 1000 <= t < now - 30 * 24 * 3600 * 1000
    ensures !Within(PeriodWindow(AllTime, now, 1), t)
  {}

  /** A running season replaces the period, and the season before is as long as it. */
  lemma SeasonsReplace(period: Period, season: Option<Window>, now: Time)
    ensures CurrentWindow(period, season, now) == if season.Some? then season.value else PeriodWindow(period, now, 0)
    ensures season.Some? ==>
              var w := season.value;
              forall t :: Within(PreviousWindow(period, season, now), t) <==> w.start - (w.end - w.start) <= t < w.start
    ensures season.None? ==> PreviousWindow(period, season, now) == PeriodWindow(period, now, 1)
  {}

  /** Active days are UTC days of 24 hours. */
  lemma DaysAre(times: seq<Time>, day: int)
    ensures day in DaysOf(times) <==> exists i :: 0 <= i < |times| && InDay(times[i], day)
  {
    if day in DaysOf(times) {
      var t :| t in times && t / DAY_MS == day;
      var i :| 0 <= i < |times| && times[i] == t;
      assert InDay(times[i], day);
    }
    if i :| 0 <= i < |times| && InDay(times[i], day) {
      assert times[i] in times && times[i] / DAY_MS == day;
    }
  }

  predicate InDay(t: Time, day: int) { day * 86_400_000 <= t < (day + 1) * 86_400_000 }

  // ----- The viewer -----

  /** The share shown is the rank's percentage of all participants to one decimal, and at
      least 0.1. */
  lemma TopPercentMeans(rank: nat, total: nat)
    requires 1 <= rank <= total
    ensures var exact, shown := rank as real / total as real * 100.0, TopPercent(rank, total);
            && shown >= 0.1 && (shown > 0.1 ==> exact - 0.05 < shown <= exact + 0.05)
            && (exact >= 0.1 ==> exact - 0.05 < shown <= exact + 0.05)
  {}
}
