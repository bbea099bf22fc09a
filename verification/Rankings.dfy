/** What the boards mean: competition ranks, who is listed, independence of the order
    of the input, agreement of the viewer's summary, and bounds on the numbers shown. */
module Rankings {
  import opened Wrappers
  import opened Sorting
  import opened Sequences
  import opened Reporting
  import opened Rounding

  // ----- Order of rows -----

  lemma OutranksFacts(collate: (string, string) -> bool, x: Row, y: Row, z: Row)
    requires StrictTotalOrder(collate)
    ensures !Outranks(collate, x, x)
    ensures Outranks(collate, x, y) && Outranks(collate, y, z) ==> Outranks(collate, x, z)
    ensures Outranks(collate, x, z) ==> Outranks(collate, x, y) || Outranks(collate, y, z)
    ensures x.handle != y.handle ==> Outranks(collate, x, y) || Outranks(collate, y, x)
  {
    assert !collate(x.handle, x.handle);
    assert collate(x.handle, y.handle) && collate(y.handle, z.handle) ==> collate(x.handle, z.handle);
    assert x.handle == y.handle || collate(x.handle, y.handle) || collate(y.handle, x.handle);
    assert collate(y.handle, x.handle) && collate(x.handle, z.handle) ==> collate(y.handle, z.handle);
  }

  lemma RowOrderIsWeak(collate: (string, string) -> bool)
    requires StrictTotalOrder(collate)
    ensures WeakOrder(RowOrder(collate))
  {
    forall x, y, z
      ensures !RowOrder(collate)(x, x)
      ensures RowOrder(collate)(x, y) && RowOrder(collate)(y, z) ==> RowOrder(collate)(x, z)
      ensures RowOrder(collate)(x, z) ==> RowOrder(collate)(x, y) || RowOrder(collate)(y, z)
    {
      OutranksFacts(collate, x, y, z);
    }
  }

  // ----- Competition ranks -----

  ghost predicate PointsDescend(rows: seq<Row>) {
    forall i, j :: 0 <= i < j < |rows| ==> rows[i].points >= rows[j].points
  }

  function Better(rows: seq<Row>, points: int): nat {
    if rows == [] then 0 else Better(rows[..|rows| - 1], points) + if rows[|rows| - 1].points > points then 1 else 0
  }

  lemma {:induction false} BetterPrefix(rows: seq<Row>, points: int, n: nat)
    requires PointsDescend(rows) && n <= |rows|
    requires forall i :: 0 <= i < n ==> rows[i].points > points
    requires forall i :: n <= i < |rows| ==> rows[i].points <= points
    ensures Better(rows, points) == n
  {
    if rows != [] {
      var last := |rows| - 1;
      BetterPrefix(rows[..last], points, if n > last then last else n);
    }
  }

  lemma {:induction false} RankCountsBetter(rows: seq<Row>, i: nat)
    requires PointsDescend(rows) && i < |rows|
    ensures RankAt(rows, i) == 1 + Better(rows, rows[i].points)
    ensures 1 <= RankAt(rows, i) <= i + 1
  {
    if i > 0 && rows[i - 1].points == rows[i].points {
      RankCountsBetter(rows, i - 1);
    } else {
      if i > 0 { assert rows[i - 1].points > rows[i].points; }
      BetterPrefix(rows, rows[i].points, i);
    }
  }

  function RowsOf(entries: seq<Entry>): (rows: seq<Row>)
    ensures |rows| == |entries|
  {
    seq(|entries|, i requires 0 <= i < |entries| => entries[i].row)
  }

  lemma SortedRows(users: seq<User>, evidence: seq<Item>, q: Query, collate: (string, string) -> bool)
    requires StrictTotalOrder(collate)
    ensures var entries := RankWindow(users, evidence, q, collate);
            && RowsOf(entries) == Sort(Collect(users, RowsFor(evidence, q)), RowOrder(collate))
            && NonDescending(RowsOf(entries), RowOrder(collate)) && PointsDescend(RowsOf(entries))
            && entries == Ranked(RowsOf(entries))
  {
    RowOrderIsWeak(collate);
    var rows := Sort(Collect(users, RowsFor(evidence, q)), RowOrder(collate));
    SortNonDescending(Collect(users, RowsFor(evidence, q)), RowOrder(collate));
    assert RowsOf(Ranked(rows)) == rows;
    forall i, j | 0 <= i < j < |rows| ensures rows[i].points >= rows[j].points {
      assert !RowOrder(collate)(rows[j], rows[i]);
    }
  }

  /** Every rank is one more than the number of entries with strictly more points. */
  lemma CompetitionRank(users: seq<User>, evidence: seq<Item>, q: Query, collate: (string, string) -> bool, i: nat)
    requires StrictTotalOrder(collate) && i < |RankWindow(users, evidence, q, collate)|
    ensures var entries := RankWindow(users, evidence, q, collate);
            && entries[i].rank == 1 + Better(RowsOf(entries), entries[i].row.points)
            && 1 <= entries[i].rank <= |entries|
  {
    SortedRows(users, evidence, q, collate);
    RankCountsBetter(RowsOf(RankWindow(users, evidence, q, collate)), i);
  }

  // ----- Who is listed -----

  predicate Scores(evidence: seq<Item>, userId: Id, q: Query) { TotalsOf(evidence, userId, q).points > 0 }

  lemma {:induction false} RowCount(users: seq<User>, evidence: seq<Item>, q: Query)
    ensures |Collect(users, RowsFor(evidence, q))| == |Filter(users, (u: User) => Scores(evidence, u.id, q))|
  {
    if users != [] { RowCount(users[..|users| - 1], evidence, q); }
  }

  /** The row that a user with positive points gets. */
  ghost predicate RowOfSome(users: seq<User>, evidence: seq<Item>, q: Query, row: Row) {
    exists i :: 0 <= i < |users| && Scores(evidence, users[i].id, q) && row == RowOf(users[i], TotalsOf(evidence, users[i].id, q))
  }

  lemma UserRow(user: User, evidence: seq<Item>, q: Query, row: Row)
    ensures row in RowsFor(evidence, q)(user) <==>
            Scores(evidence, user.id, q) && row == RowOf(user, TotalsOf(evidence, user.id, q))
  {}

  lemma RowCollected(users: seq<User>, evidence: seq<Item>, q: Query, row: Row)
    ensures row in Collect(users, RowsFor(evidence, q)) <==> RowOfSome(users, evidence, q, row)
  {
    CollectMembers(users, RowsFor(evidence, q));
    if row in Collect(users, RowsFor(evidence, q)) {
      var i :| 0 <= i < |users| && row in RowsFor(evidence, q)(users[i]);
      UserRow(users[i], evidence, q, row);
    }
    if i :| 0 <= i < |users| && Scores(evidence, users[i].id, q) && row == RowOf(users[i], TotalsOf(evidence, users[i].id, q)) {
      UserRow(users[i], evidence, q, row);
    }
  }

  /** The board lists exactly the users with positive points: one entry for each of
      them, carrying that user's totals, and no other. */
  lemma ListedExactly(users: seq<User>, evidence: seq<Item>, q: Query, collate: (string, string) -> bool)
    ensures var entries := RankWindow(users, evidence, q, collate);
            && |entries| == |Filter(users, (u: User) => Scores(evidence, u.id, q))|
            && multiset(RowsOf(entries)) == multiset(Collect(users, RowsFor(evidence, q)))
            && forall row :: row in RowsOf(entries) <==> RowOfSome(users, evidence, q, row)
  {
    var rows := Collect(users, RowsFor(evidence, q));
    RowCount(users, evidence, q);
    SortMembers(rows, RowOrder(collate));
    assert RowsOf(RankWindow(users, evidence, q, collate)) == Sort(rows, RowOrder(collate));
    forall row ensures row in rows <==> RowOfSome(users, evidence, q, row) { RowCollected(users, evidence, q, row); }
  }

  // ----- Independence of the order of the input -----

  lemma TotalsPermuted(evidence: seq<Item>, others: seq<Item>, userId: Id, q: Query)
    requires multiset(evidence) == multiset(others)
    ensures TotalsOf(evidence, userId, q) == TotalsOf(others, userId, q)
  {
    FilterPermuted(evidence, others, CountsFor(userId, q.window));
    var mine, theirs := Mine(evidence, userId, q.window), Mine(others, userId, q.window);
    SumPermuted(mine, theirs, Scorer(q.keys));
    SumPermuted(mine, theirs, RawPoints(q.keys));
    SumPermuted(mine, theirs, RawMaximum(q.keys));
  }

  lemma {:induction false} CollectSame(users: seq<User>, f: User -> seq<Row>, g: User -> seq<Row>)
    requires forall u :: f(u) == g(u)
    ensures Collect(users, f) == Collect(users, g)
  {
    if users != [] { CollectSame(users[..|users| - 1], f, g); }
  }

  ghost predicate UniqueHandles(users: seq<User>) {
    forall i, j :: 0 <= i < j < |users| ==> users[i].handle != users[j].handle
  }

  /** A row carries the handle of one of the users it was made for. */
  lemma RowHandle(users: seq<User>, evidence: seq<Item>, q: Query, i: nat)
    requires i < |Collect(users, RowsFor(evidence, q))|
    ensures exists k :: 0 <= k < |users| && users[k].handle == Collect(users, RowsFor(evidence, q))[i].handle
  {
    CollectMembers(users, RowsFor(evidence, q));
    assert Collect(users, RowsFor(evidence, q))[i] in Collect(users, RowsFor(evidence, q));
    var k :| 0 <= k < |users| && Collect(users, RowsFor(evidence, q))[i] in RowsFor(evidence, q)(users[k]);
  }

  lemma {:induction false} RowsSeparated(users: seq<User>, evidence: seq<Item>, q: Query, collate: (string, string) -> bool)
    requires StrictTotalOrder(collate) && UniqueHandles(users)
    ensures Separated(Collect(users, RowsFor(evidence, q)), RowOrder(collate))
  {
    if users != [] {
      var last := |users| - 1;
      var earlier := Collect(users[..last], RowsFor(evidence, q));
      RowsSeparated(users[..last], evidence, q, collate);
      forall i | 0 <= i < |earlier| && RowsFor(evidence, q)(users[last]) != []
        ensures RowOrder(collate)(earlier[i], RowsFor(evidence, q)(users[last])[0])
             || RowOrder(collate)(RowsFor(evidence, q)(users[last])[0], earlier[i])
      {
        RowHandle(users[..last], evidence, q, i);
        OutranksFacts(collate, earlier[i], RowsFor(evidence, q)(users[last])[0], earlier[i]);
      }
    }
  }

  /** With unique handles the whole board is the same whatever order users and
      evidence come in. */
  lemma RankingIgnoresOrder(users: seq<User>, otherUsers: seq<User>, evidence: seq<Item>, others: seq<Item>, q: Query,
                            collate: (string, string) -> bool)
    requires StrictTotalOrder(collate) && UniqueHandles(users)
    requires multiset(users) == multiset(otherUsers) && multiset(evidence) == multiset(others)
    ensures RankWindow(users, evidence, q, collate) == RankWindow(otherUsers, others, q, collate)
  {
    forall u: User ensures RowsFor(evidence, q)(u) == RowsFor(others, q)(u) {
      TotalsPermuted(evidence, others, u.id, q);
    }
    CollectSame(otherUsers, RowsFor(evidence, q), RowsFor(others, q));
    CollectPermuted(users, otherUsers, RowsFor(evidence, q));
    RowsSeparated(users, evidence, q, collate);
    RowOrderIsWeak(collate);
    SortPermutation(Collect(users, RowsFor(evidence, q)), Collect(otherUsers, RowsFor(evidence, q)), RowOrder(collate));
  }

  // ----- The viewer -----

  lemma {:induction false} FoundEntry(entries: seq<Entry>, userId: Id)
    ensures FindEntry(entries, userId).Some? <==> exists i :: 0 <= i < |entries| && entries[i].row.userId == userId
    ensures FindEntry(entries, userId).Some? ==>
              exists i :: 0 <= i < |entries| && entries[i] == FindEntry(entries, userId).value && entries[i].row.userId == userId
  {
    if entries != [] {
      FoundEntry(entries[1..], userId);
      assert forall i :: 1 <= i < |entries| ==> entries[i] == entries[1..][i - 1];
      if FindEntry(entries, userId).Some? && entries[0].row.userId != userId {
        var i :| 0 <= i < |entries[1..]| && entries[1..][i] == FindEntry(entries[1..], userId).value && entries[1..][i].row.userId == userId;
        assert entries[i + 1] == FindEntry(entries, userId).value;
      }
      if exists i :: 0 <= i < |entries| && entries[i].row.userId == userId {
        var i :| 0 <= i < |entries| && entries[i].row.userId == userId;
        if i > 0 { assert entries[1..][i - 1].row.userId == userId; }
      }
    }
  }

  lemma TopPercentBounds(rank: nat, total: nat)
    requires 1 <= rank <= total
    ensures 0.1 <= TopPercent(rank, total) <= 100.0
  {
    var share := rank as real / total as real;
    assert 0.0 < share <= 1.0;
    assert Round(share * 1000.0) <= 1000;
  }

  /** Whenever the viewer is on the board, the totals recomputed for the summary are
      those of the viewer's entry, and the rank and share shown are within bounds. */
  lemma ViewerAgreesWithBoard(users: seq<User>, evidence: seq<Item>, q: Query, collate: (string, string) -> bool, userId: Id)
    requires StrictTotalOrder(collate)
    requires FindEntry(RankWindow(users, evidence, q, collate), userId).Some?
    ensures var entries := RankWindow(users, evidence, q, collate);
            var entry := FindEntry(entries, userId).value;
            var t := TotalsOf(evidence, userId, q);
            && entry.row.points == t.points && entry.row.completedLabs == t.completedLabs && entry.row.accuracy == t.accuracy
            && 1 <= entry.rank <= |entries|
            && 0.1 <= TopPercent(entry.rank, |entries|) <= 100.0
  {
    var entries := RankWindow(users, evidence, q, collate);
    FoundEntry(entries, userId);
    var i :| 0 <= i < |entries| && entries[i] == FindEntry(entries, userId).value && entries[i].row.userId == userId;
    CompetitionRank(users, evidence, q, collate, i);
    ListedExactly(users, evidence, q, collate);
    assert RowsOf(entries)[i] in RowsOf(entries);
    TopPercentBounds(entries[i].rank, |entries|);
  }

  /** A listed user is always found, so a viewer with positive points has a rank. */
  lemma ScoringViewerIsRanked(users: seq<User>, evidence: seq<Item>, q: Query, collate: (string, string) -> bool, i: nat)
    requires i < |users| && Scores(evidence, users[i].id, q)
    ensures FindEntry(RankWindow(users, evidence, q, collate), users[i].id).Some?
  {
    var entries := RankWindow(users, evidence, q, collate);
    ListedExactly(users, evidence, q, collate);
    var row := RowOf(users[i], TotalsOf(evidence, users[i].id, q));
    assert row in RowsOf(entries);
    var k :| 0 <= k < |entries| && RowsOf(entries)[k] == row;
    FoundEntry(entries, users[i].id);
    assert entries[k].row.userId == users[i].id;
  }

  // ----- Scopes -----

  /** The row of an eligible user with positive points. */
  ghost predicate RowOfEligible(users: seq<User>, evidence: seq<Item>, scope: Scope, q: Query, row: Row) {
    exists user :: user in users && Eligible(scope)(user) && Scores(evidence, user.id, q)
                   && row == RowOf(user, TotalsOf(evidence, user.id, q))
  }

  /** A board lists exactly the eligible users with positive points, one entry each. */
  lemma BoardListsExactly(users: seq<User>, evidence: seq<Item>, scope: Scope, q: Query, collate: (string, string) -> bool)
    ensures var entries := ScopedWindow(users, evidence, scope, q, collate);
            && |entries| == |Filter(users, (u: User) => Eligible(scope)(u) && Scores(evidence, u.id, q))|
            && forall row :: row in RowsOf(entries) <==> RowOfEligible(users, evidence, scope, q, row)
  {
    var eligible := Filter(users, Eligible(scope));
    var scoring := (u: User) => Scores(evidence, u.id, q);
    ListedExactly(eligible, evidence, q, collate);
    FilterMembers(users, Eligible(scope));
    FilterTwice(users, Eligible(scope), scoring, (u: User) => Eligible(scope)(u) && Scores(evidence, u.id, q));
    forall row | RowOfEligible(users, evidence, scope, q, row) ensures RowOfSome(eligible, evidence, q, row) {
      var user :| user in users && Eligible(scope)(user) && Scores(evidence, user.id, q) && row == RowOf(user, TotalsOf(evidence, user.id, q));
      assert user in eligible;
    }
  }

  ghost predicate UniqueIds(users: seq<User>) {
    forall i, j :: 0 <= i < j < |users| ==> users[i].id != users[j].id
  }

  lemma EntryOwner(users: seq<User>, evidence: seq<Item>, scope: Scope, q: Query, collate: (string, string) -> bool, k: nat)
    returns (owner: nat)
    requires k < |ScopedWindow(users, evidence, scope, q, collate)|
    ensures owner < |users| && Eligible(scope)(users[owner])
    ensures ScopedWindow(users, evidence, scope, q, collate)[k].row.userId == users[owner].id
  {
    var entries := ScopedWindow(users, evidence, scope, q, collate);
    BoardListsExactly(users, evidence, scope, q, collate);
    var row := RowsOf(entries)[k];
    assert row == entries[k].row && row in RowsOf(entries);
    var user :| user in users && Eligible(scope)(user) && Scores(evidence, user.id, q) && row == RowOf(user, TotalsOf(evidence, user.id, q));
    assert row.userId == user.id;
    owner :| 0 <= owner < |users| && users[owner] == user;
  }

  /** Whoever is not eligible is nowhere on the board: on the global one, nobody who
      did not opt in. */
  lemma NotEligibleNotListed(users: seq<User>, evidence: seq<Item>, scope: Scope, q: Query, collate: (string, string) -> bool, i: nat)
    requires UniqueIds(users) && i < |users| && !Eligible(scope)(users[i])
    ensures FindEntry(ScopedWindow(users, evidence, scope, q, collate), users[i].id).None?
  {
    var entries := ScopedWindow(users, evidence, scope, q, collate);
    FoundEntry(entries, users[i].id);
    forall k | 0 <= k < |entries| ensures entries[k].row.userId != users[i].id {
      var owner := EntryOwner(users, evidence, scope, q, collate, k);
      assert owner != i;
    }
  }

  function EligibleIds(users: seq<User>, scope: Scope): set<Id> { set u | u in Filter(users, Eligible(scope)) :: u.id }

  function OfUsers(ids: set<Id>): Item -> bool { (item: Item) => item.userId in ids }

  lemma TotalsOfOwn(evidence: seq<Item>, ids: set<Id>, userId: Id, q: Query)
    requires userId in ids
    ensures TotalsOf(Filter(evidence, OfUsers(ids)), userId, q) == TotalsOf(evidence, userId, q)
  {
    FilterWithin(evidence, OfUsers(ids), CountsFor(userId, q.window));
  }

  lemma {:induction false} CollectSameFor(users: seq<User>, f: User -> seq<Row>, g: User -> seq<Row>)
    requires forall u :: u in users ==> f(u) == g(u)
    ensures Collect(users, f) == Collect(users, g)
  {
    if users != [] {
      assert users[|users| - 1] in users;
      CollectSameFor(users[..|users| - 1], f, g);
    }
  }

  /** Those who are not eligible leave no trace: two datasets with the same eligible
      users and the same evidence of theirs give the same board, whoever else there is
      and whatever the others achieved. */
  lemma OthersLeaveNoTrace(users: seq<User>, otherUsers: seq<User>, evidence: seq<Item>, others: seq<Item>, scope: Scope,
                           q: Query, collate: (string, string) -> bool)
    requires Filter(users, Eligible(scope)) == Filter(otherUsers, Eligible(scope))
    requires Filter(evidence, OfUsers(EligibleIds(users, scope))) == Filter(others, OfUsers(EligibleIds(users, scope)))
    ensures ScopedWindow(users, evidence, scope, q, collate) == ScopedWindow(otherUsers, others, scope, q, collate)
  {
    var eligible, ids := Filter(users, Eligible(scope)), EligibleIds(users, scope);
    forall u | u in eligible ensures RowsFor(evidence, q)(u) == RowsFor(others, q)(u) {
      TotalsOfOwn(evidence, ids, u.id, q);
      TotalsOfOwn(others, ids, u.id, q);
    }
    CollectSameFor(eligible, RowsFor(evidence, q), RowsFor(others, q));
  }

  lemma {:induction false} RankMapHolds(entries: seq<Entry>, id: Id)
    ensures id in RankMap(entries) <==> exists k :: 0 <= k < |entries| && entries[k].row.userId == id
    ensures id in RankMap(entries) ==>
              exists k :: 0 <= k < |entries| && entries[k].row.userId == id && entries[k].rank == RankMap(entries)[id]
  {
    if entries != [] {
      var last := |entries| - 1;
      RankMapHolds(entries[..last], id);
      if entries[last].row.userId != id && id in RankMap(entries) {
        var k :| 0 <= k < last && entries[..last][k].row.userId == id && entries[..last][k].rank == RankMap(entries)[id];
        assert entries[k].row.userId == id && entries[k].rank == RankMap(entries)[id];
      }
      if k :| 0 <= k < last && entries[k].row.userId == id { assert entries[..last][k].row.userId == id; }
    }
  }

  /** Where identifiers are unique, a user has one rank on a board. */
  lemma OneRankEach(users: seq<User>, evidence: seq<Item>, q: Query, collate: (string, string) -> bool, i: nat, j: nat)
    requires StrictTotalOrder(collate) && UniqueIds(users)
    requires i < |RankWindow(users, evidence, q, collate)| && j < |RankWindow(users, evidence, q, collate)|
    requires RankWindow(users, evidence, q, collate)[i].row.userId == RankWindow(users, evidence, q, collate)[j].row.userId
    ensures RankWindow(users, evidence, q, collate)[i].rank == RankWindow(users, evidence, q, collate)[j].rank
  {
    var entries := RankWindow(users, evidence, q, collate);
    ListedExactly(users, evidence, q, collate);
    assert RowsOf(entries)[i] in RowsOf(entries) && RowsOf(entries)[j] in RowsOf(entries);
    CompetitionRank(users, evidence, q, collate, i);
    CompetitionRank(users, evidence, q, collate, j);
  }

  lemma {:induction false} FilterKeepsUnique(users: seq<User>, p: User -> bool)
    requires UniqueIds(users)
    ensures UniqueIds(Filter(users, p))
  {
    if users != [] {
      var last := |users| - 1;
      var earlier := Filter(users[..last], p);
      FilterKeepsUnique(users[..last], p);
      FilterMembers(users[..last], p);
      forall i | 0 <= i < |earlier| ensures earlier[i].id != users[last].id {
        assert earlier[i] in users[..last];
      }
    }
  }

  /** The change shown is the previous rank less the current one, whichever entry of
      the previous board one compares with, and 0 for newcomers. */
  lemma ChangeMeans(users: seq<User>, evidence: seq<Item>, scope: Scope, current: Query, previous: Query,
                    collate: (string, string) -> bool, i: nat)
    requires StrictTotalOrder(collate) && UniqueIds(users)
    requires i < |ScopedWindow(users, evidence, scope, current, collate)|
    ensures var entries, before := ScopedWindow(users, evidence, scope, current, collate), ScopedWindow(users, evidence, scope, previous, collate);
            var shown := Changed(entries, before)[i];
            && shown.entry == entries[i]
            && (forall k :: 0 <= k < |before| && before[k].row.userId == entries[i].row.userId ==>
                  shown.change == before[k].rank - entries[i].rank)
            && (FindEntry(before, entries[i].row.userId).None? ==> shown.change == 0)
  {
    var entries, before := ScopedWindow(users, evidence, scope, current, collate), ScopedWindow(users, evidence, scope, previous, collate);
    var id := entries[i].row.userId;
    RankMapHolds(before, id);
    FoundEntry(before, id);
    FilterKeepsUnique(users, Eligible(scope));
    forall k | 0 <= k < |before| && before[k].row.userId == id ensures RankMap(before)[id] == before[k].rank {
      var m :| 0 <= m < |before| && before[m].row.userId == id && before[m].rank == RankMap(before)[id];
      OneRankEach(Filter(users, Eligible(scope)), evidence, previous, collate, k, m);
    }
  }

  // ----- Streaks -----

  /** The current streak never exceeds the longest one. */
  lemma CurrentWithinLongest(days: set<int>, today: int, current: nat, longest: nat)
    requires EndingAt(days, today, current) && Longest(days, longest)
    ensures current <= longest
  {
    var last := if today in days then today else today - 1;
    assert Streak(days, last - current + 1, current);
  }

  /** `EndingAt` leaves no choice: the streak is the longest run ending on that day. */
  lemma EndingAtIsMaximal(days: set<int>, today: int, current: nat, n: nat)
    requires EndingAt(days, today, current)
    ensures var last := if today in days then today else today - 1;
            Streak(days, last - n + 1, n) <==> n <= current
  {
    var last := if today in days then today else today - 1;
    if n > current { assert last - n + 1 <= last - current < last + 1; }
  }

  // ----- Windows -----

  /** The window before a season is adjacent to it and as long. */
  lemma ShiftedTiles(w: Window)
    ensures ShiftWindow(w).end == w.start
    ensures ShiftWindow(w).end - ShiftWindow(w).start == w.end - w.start
    ensures forall t :: !(Within(w, t) && Within(ShiftWindow(w), t))
  {}

  /** Current and previous period never share an instant; weekly and monthly ones are
      adjacent and equally long. */
  lemma PeriodsTile(period: Period, now: Time)
    ensures forall t :: !(Within(PeriodWindow(period, now, 0), t) && Within(PeriodWindow(period, now, 1), t))
    ensures period != AllTime ==> PeriodWindow(period, now, 1) == ShiftWindow(PeriodWindow(period, now, 0))
  {}

  lemma {:induction false} DisjointMine(evidence: seq<Item>, userId: Id, a: Window, b: Window)
    requires forall t :: !(Within(a, t) && Within(b, t))
    ensures forall item :: item in Mine(evidence, userId, a) ==> item !in Mine(evidence, userId, b)
  {
    FilterMembers(evidence, CountsFor(userId, a));
    FilterMembers(evidence, CountsFor(userId, b));
  }

  /** So no evidence counts on both sides of `pointsDelta`. */
  lemma DeltaCountsOnce(evidence: seq<Item>, userId: Id, period: Period, now: Time, season: Option<Window>)
    ensures var current, previous := CurrentWindow(period, season, now), PreviousWindow(period, season, now);
            forall item :: item in Mine(evidence, userId, current) ==> item !in Mine(evidence, userId, previous)
  {
    if season.Some? {
      ShiftedTiles(season.value);
      DisjointMine(evidence, userId, season.value, ShiftWindow(season.value));
    } else {
      PeriodsTile(period, now);
      DisjointMine(evidence, userId, PeriodWindow(period, now, 0), PeriodWindow(period, now, 1));
    }
  }
}
