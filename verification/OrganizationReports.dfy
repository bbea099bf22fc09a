/** The organization report's headline: a rounded mediant of its members' scores. */
module OrganizationReports {
  import opened Wrappers
  import opened Sequences
  import opened Reporting
  import opened Rounding
  import Tables

  function PointsOf(): Item -> int { (item: Item) => item.points }

  function MaximumOf(): Item -> int { (item: Item) => item.maxPoints }

  function OverallScore(evidence: seq<Item>): int { Percent(Sum(evidence, PointsOf()), Sum(evidence, MaximumOf())) }

  function By(userId: Id): Item -> bool { (item: Item) => item.userId == userId }

  function NotBy(userId: Id): Item -> bool { (item: Item) => item.userId != userId }

  datatype MemberReport = MemberReport(userId: Id, overallScore: int, completedLabs: nat)

  datatype OrganizationReport = OrganizationReport(memberCount: nat, overallScore: int, members: seq<MemberReport>)

  function OrganizationEvidence(evidence: seq<Item>, organizationId: Id): seq<Item> {
    Filter(evidence, (item: Item) => ValidItem(item) && item.organizationId == Some(organizationId))
  }

  function MembersOf(users: seq<User>, organizationId: Id): seq<User> {
    Filter(users, (user: User) => user.organizationId == Some(organizationId))
  }

  function ReportFor(users: seq<User>, evidence: seq<Item>, organizationId: Id): OrganizationReport {
    var members := MembersOf(users, organizationId);
    var mine := OrganizationEvidence(evidence, organizationId);
    OrganizationReport(|members|, OverallScore(mine),
      seq(|members|, i requires 0 <= i < |members| =>
        MemberReport(members[i].id, OverallScore(Filter(mine, By(members[i].id))), |Filter(mine, By(members[i].id))|)))
  }

  predicate CountsFor(item: Item, organizationId: Id) {
    item.maxPoints > 0 && item.points >= 0 && item.organizationId == Some(organizationId)
  }

  /** The points and maximum of the organization's evidence, of one member when given. */
  function EarnedIn(evidence: seq<Item>, organizationId: Id, member: Option<Id>): (int, int, nat) {
    if evidence == [] then (0, 0, 0)
    else
      var earlier, last := EarnedIn(evidence[..|evidence| - 1], organizationId, member), evidence[|evidence| - 1];
      if CountsFor(last, organizationId) && (member == None || member == Some(last.userId))
      then (earlier.0 + last.points, earlier.1 + last.maxPoints, earlier.2 + 1) else earlier
  }

  lemma {:induction false} EarnedByAll(evidence: seq<Item>, organizationId: Id)
    ensures var mine := OrganizationEvidence(evidence, organizationId);
            EarnedIn(evidence, organizationId, None) == (Sum(mine, PointsOf()), Sum(mine, MaximumOf()), |mine|)
  {
    if evidence != [] {
      var last := |evidence| - 1;
      EarnedByAll(evidence[..last], organizationId);
      var earlier := OrganizationEvidence(evidence[..last], organizationId);
      assert (earlier + [evidence[last]])[..|earlier|] == earlier;
    }
  }

  lemma {:induction false} EarnedByOne(evidence: seq<Item>, organizationId: Id, id: Id)
    ensures var mine := Filter(OrganizationEvidence(evidence, organizationId), By(id));
            EarnedIn(evidence, organizationId, Some(id)) == (Sum(mine, PointsOf()), Sum(mine, MaximumOf()), |mine|)
  {
    if evidence != [] {
      var last := |evidence| - 1;
      EarnedByOne(evidence[..last], organizationId, id);
      var earlier := OrganizationEvidence(evidence[..last], organizationId);
      var mine := Filter(earlier, By(id));
      assert (earlier + [evidence[last]])[..|earlier|] == earlier;
      assert (mine + [evidence[last]])[..|mine|] == mine;
    }
  }

  /** The report shows the percentage of all points earned in the organization, and for
      each member, one row each, the percentage and the number of that member's labs. */
  lemma ReportShows(users: seq<User>, evidence: seq<Item>, organizationId: Id)
    ensures var report, earned := ReportFor(users, evidence, organizationId), EarnedIn(evidence, organizationId, None);
            && report.overallScore == Percent(earned.0, earned.1)
            && report.memberCount == |report.members|
            && forall i :: 0 <= i < |report.members| ==>
                 var row := report.members[i];
                 var own := EarnedIn(evidence, organizationId, Some(row.userId));
                 row.overallScore == Percent(own.0, own.1) && row.completedLabs == own.2
    ensures forall id :: HasRow(ReportFor(users, evidence, organizationId), id) <==> IsMember(users, id, organizationId)
  {
    EarnedByAll(evidence, organizationId);
    var members, report := MembersOf(users, organizationId), ReportFor(users, evidence, organizationId);
    forall i | 0 <= i < |report.members|
      ensures var own := EarnedIn(evidence, organizationId, Some(report.members[i].userId));
              report.members[i].overallScore == Percent(own.0, own.1) && report.members[i].completedLabs == own.2
    {
      EarnedByOne(evidence, organizationId, members[i].id);
    }
    FilterMembers(users, (user: User) => user.organizationId == Some(organizationId));
    forall id ensures HasRow(report, id) <==> IsMember(users, id, organizationId) {
      if i :| 0 <= i < |report.members| && report.members[i].userId == id { assert members[i] in members; }
      if u :| u in users && u.id == id && u.organizationId == Some(organizationId) {
        assert u in members;
        var i :| 0 <= i < |members| && members[i] == u;
        assert report.members[i].userId == id;
      }
    }
  }

  ghost predicate HasRow(report: OrganizationReport, id: Id) { exists i :: 0 <= i < |report.members| && report.members[i].userId == id }

  ghost predicate IsMember(users: seq<User>, id: Id, organizationId: Id) {
    exists u :: u in users && u.id == id && u.organizationId == Some(organizationId)
  }

  // ----- Rounding turned into linear inequalities -----

  lemma PercentLinear(points: int, maximum: int)
    requires points >= 0 && maximum > 0
    ensures forall low :: low <= 100 ==> (low <= Percent(points, maximum) <==> low <= 0 || 2 * low * maximum <= 200 * points + maximum)
  {
    forall low | low <= 100 ensures low <= Percent(points, maximum) <==> low <= 0 || 2 * low * maximum <= 200 * points + maximum {
      RoundLinear(points, maximum, low);
      assert Round(points as real / maximum as real * 100.0) >= 0;
    }
  }

  lemma RoundLinear(points: int, maximum: int, low: int)
    requires points >= 0 && maximum > 0
    ensures low <= Round(points as real / maximum as real * 100.0) <==> 2 * low * maximum <= 200 * points + maximum
    ensures Round(points as real / maximum as real * 100.0) >= 0
  {
    var ratio := points as real / maximum as real;
    assert ratio * maximum as real == points as real;
    assert ratio >= 0.0;
    ScaledUp(ratio, points, maximum, low);
    FloorAtLeast(ratio * 100.0 + 0.5, low);
  }

  lemma FloorAtLeast(x: real, low: int)
    ensures low <= x.Floor <==> low as real <= x
  {}

  lemma ScaledUp(ratio: real, points: int, maximum: int, low: int)
    requires maximum > 0 && ratio * maximum as real == points as real
    ensures low as real <= ratio * 100.0 + 0.5 <==> 2 * low * maximum <= 200 * points + maximum
  {
    var m := maximum as real;
    var gap := ratio * 100.0 + 0.5 - low as real;
    assert 2.0 * gap * m == 200.0 * (ratio * m) + m - 2.0 * low as real * m;
    SignOfProduct(2.0 * gap, m);
    assert 2.0 * low as real * m == (2 * low * maximum) as real;
    assert 200.0 * (ratio * m) + m == (200 * points + maximum) as real;
  }

  lemma SignOfProduct(x: real, m: real)
    requires m > 0.0
    ensures x * m >= 0.0 <==> x >= 0.0
  {}

  // ----- Adding up members -----

  /** By how much an item lifts its owner's score above `low`; sums of it decide the bound. */
  function Above(low: int): Item -> int { (item: Item) => 200 * item.points + item.maxPoints - 2 * low * item.maxPoints }

  function Below(high: int): Item -> int { (item: Item) => 2 * (high + 1) * item.maxPoints - 200 * item.points - item.maxPoints }

  lemma {:induction false} AboveSum(evidence: seq<Item>, low: int)
    ensures Sum(evidence, Above(low)) == 200 * Sum(evidence, PointsOf()) + Sum(evidence, MaximumOf()) - 2 * low * Sum(evidence, MaximumOf())
  {
    if evidence != [] {
      var last := |evidence| - 1;
      AboveSum(evidence[..last], low);
      Distribute(2 * low, Sum(evidence[..last], MaximumOf()), evidence[last].maxPoints);
    }
  }

  lemma {:induction false} BelowSum(evidence: seq<Item>, high: int)
    ensures Sum(evidence, Below(high))
         == 2 * (high + 1) * Sum(evidence, MaximumOf()) - 200 * Sum(evidence, PointsOf()) - Sum(evidence, MaximumOf())
  {
    if evidence != [] {
      var last := |evidence| - 1;
      BelowSum(evidence[..last], high);
      Distribute(2 * (high + 1), Sum(evidence[..last], MaximumOf()), evidence[last].maxPoints);
    }
  }

  lemma Distribute(k: int, m: int, n: int)
    ensures k * (m + n) == k * m + k * n
  {}

  ghost predicate Sound(evidence: seq<Item>) {
    forall i :: 0 <= i < |evidence| ==> evidence[i].maxPoints > 0 && evidence[i].points >= 0
  }

  lemma {:induction false} SoundSums(evidence: seq<Item>)
    requires Sound(evidence)
    ensures Sum(evidence, PointsOf()) >= 0 && Sum(evidence, MaximumOf()) >= |evidence|
  {
    if evidence != [] { SoundSums(evidence[..|evidence| - 1]); }
  }

  lemma SoundFilter(evidence: seq<Item>, p: Item -> bool)
    requires Sound(evidence)
    ensures Sound(Filter(evidence, p))
  {
    FilterMembers(evidence, p);
    forall i | 0 <= i < |Filter(evidence, p)| ensures Filter(evidence, p)[i].maxPoints > 0 && Filter(evidence, p)[i].points >= 0 {
      assert Filter(evidence, p)[i] in Filter(evidence, p);
    }
  }

  ghost predicate Covered(evidence: seq<Item>, ids: seq<Id>) {
    forall i :: 0 <= i < |evidence| ==> evidence[i].userId in ids
  }

  /** Every member with evidence scores within the two bounds. */
  ghost predicate MembersWithin(evidence: seq<Item>, ids: seq<Id>, low: int, high: int) {
    forall id :: id in ids && Filter(evidence, By(id)) != [] ==> low <= OverallScore(Filter(evidence, By(id))) <= high
  }

  lemma ScoreIsLinear(evidence: seq<Item>, low: int, high: int)
    requires Sound(evidence) && evidence != [] && 0 < low <= 100 && 0 <= high < 100
    ensures low <= OverallScore(evidence) <==> Sum(evidence, Above(low)) >= 0
    ensures OverallScore(evidence) <= high <==> Sum(evidence, Below(high)) > 0
  {
    SoundSums(evidence);
    AboveSum(evidence, low);
    BelowSum(evidence, high);
    PercentLinear(Sum(evidence, PointsOf()), Sum(evidence, MaximumOf()));
  }

  lemma RestCovered(evidence: seq<Item>, ids: seq<Id>)
    requires ids != [] && Covered(evidence, ids)
    ensures Covered(Filter(evidence, NotBy(ids[0])), ids[1..])
  {
    var rest := Filter(evidence, NotBy(ids[0]));
    FilterMembers(evidence, NotBy(ids[0]));
    forall i | 0 <= i < |rest| ensures rest[i].userId in ids[1..] {
      assert rest[i] in rest && rest[i] in evidence;
      var k :| 0 <= k < |ids| && ids[k] == rest[i].userId;
      assert k > 0 && ids[1..][k - 1] == rest[i].userId;
    }
  }

  lemma RestWithin(evidence: seq<Item>, ids: seq<Id>, low: int, high: int)
    requires ids != [] && MembersWithin(evidence, ids, low, high)
    ensures MembersWithin(Filter(evidence, NotBy(ids[0])), ids[1..], low, high)
  {
    var rest := Filter(evidence, NotBy(ids[0]));
    forall id | id in ids[1..] && Filter(rest, By(id)) != [] ensures low <= OverallScore(Filter(rest, By(id))) <= high {
      if id == ids[0] {
        FilterMembers(rest, By(id));
        FilterMembers(evidence, NotBy(id));
        assert Filter(rest, By(id))[0] in Filter(rest, By(id));
        assert false;
      } else {
        FilterWithin(evidence, NotBy(ids[0]), By(id));
      }
    }
  }

  ghost predicate Bounded(evidence: seq<Item>, low: int, high: int) {
    && (0 < low <= 100 ==> Sum(evidence, Above(low)) >= 0)
    && (0 <= high < 100 ==> Sum(evidence, Below(high)) > 0)
  }

  /** Bounds on one member's evidence and on everybody else's give bounds on the whole. */
  lemma BoundedJoins(evidence: seq<Item>, id: Id, low: int, high: int)
    requires evidence != []
    requires Filter(evidence, By(id)) == [] || Bounded(Filter(evidence, By(id)), low, high)
    requires Filter(evidence, NotBy(id)) == [] || Bounded(Filter(evidence, NotBy(id)), low, high)
    ensures Bounded(evidence, low, high)
  {
    SumSplit(evidence, By(id), NotBy(id), Above(low));
    SumSplit(evidence, By(id), NotBy(id), Below(high));
    SplitCovers(evidence, id);
  }

  lemma SplitCovers(evidence: seq<Item>, id: Id)
    requires evidence != []
    ensures Filter(evidence, By(id)) != [] || Filter(evidence, NotBy(id)) != []
  {}

  /** The mediant argument: what holds of every member's sums holds of the total. */
  lemma {:induction false} TotalWithin(evidence: seq<Item>, ids: seq<Id>, low: int, high: int)
    requires Sound(evidence) && evidence != [] && Covered(evidence, ids) && MembersWithin(evidence, ids, low, high)
    ensures Bounded(evidence, low, high)
    decreases |ids|
  {
    assert evidence[0].userId in ids;
    var mine, rest := Filter(evidence, By(ids[0])), Filter(evidence, NotBy(ids[0]));
    SoundFilter(evidence, By(ids[0]));
    SoundFilter(evidence, NotBy(ids[0]));
    if rest != [] {
      RestCovered(evidence, ids);
      RestWithin(evidence, ids, low, high);
      TotalWithin(rest, ids[1..], low, high);
    }
    if mine != [] {
      assert ids[0] in ids;
      MemberLinear(mine, low, high);
    }
    BoundedJoins(evidence, ids[0], low, high);
  }

  lemma MemberLinear(mine: seq<Item>, low: int, high: int)
    requires Sound(mine) && mine != [] && low <= OverallScore(mine) <= high
    ensures Bounded(mine, low, high)
  {
    if 0 < low <= 100 { ScoreIsLinear(mine, low, 0); }
    if 0 <= high < 100 { ScoreIsLinear(mine, 1, high); }
  }

  lemma ScoreRange(evidence: seq<Item>)
    ensures 0 <= OverallScore(evidence) <= 100
  {}

  /** An organization's overall score lies between the lowest and the highest overall
      score of its members with evidence, provided all its evidence is theirs. */
  lemma MediantBound(users: seq<User>, evidence: seq<Item>, organizationId: Id, low: int, high: int)
    requires OrganizationEvidence(evidence, organizationId) != []
    requires forall i :: 0 <= i < |OrganizationEvidence(evidence, organizationId)| ==>
               exists k :: 0 <= k < |MembersOf(users, organizationId)|
                           && MembersOf(users, organizationId)[k].id == OrganizationEvidence(evidence, organizationId)[i].userId
    requires forall k :: 0 <= k < |ReportFor(users, evidence, organizationId).members| ==>
               var member := ReportFor(users, evidence, organizationId).members[k];
               member.completedLabs > 0 ==> low <= member.overallScore <= high
    ensures low <= ReportFor(users, evidence, organizationId).overallScore <= high
  {
    var mine, members := OrganizationEvidence(evidence, organizationId), MembersOf(users, organizationId);
    var report := ReportFor(users, evidence, organizationId);
    var ids := seq(|members|, k requires 0 <= k < |members| => members[k].id);
    OrganizationEvidenceSound(evidence, organizationId);
    forall i | 0 <= i < |mine| ensures mine[i].userId in ids {
      var k :| 0 <= k < |members| && members[k].id == mine[i].userId;
      assert ids[k] == mine[i].userId;
    }
    forall id | id in ids && Filter(mine, By(id)) != [] ensures low <= OverallScore(Filter(mine, By(id))) <= high {
      var k :| 0 <= k < |ids| && ids[k] == id;
      assert report.members[k].completedLabs > 0;
    }
    WithinTotal(mine, ids, low, high);
  }

  lemma OrganizationEvidenceSound(evidence: seq<Item>, organizationId: Id)
    ensures Sound(OrganizationEvidence(evidence, organizationId))
  {
    var p := (item: Item) => ValidItem(item) && item.organizationId == Some(organizationId);
    FilterMembers(evidence, p);
    var mine := OrganizationEvidence(evidence, organizationId);
    forall i | 0 <= i < |mine| ensures mine[i].maxPoints > 0 && mine[i].points >= 0 { assert mine[i] in Filter(evidence, p); }
  }

  lemma WithinTotal(mine: seq<Item>, ids: seq<Id>, low: int, high: int)
    requires Sound(mine) && mine != [] && Covered(mine, ids) && MembersWithin(mine, ids, low, high)
    ensures low <= OverallScore(mine) <= high
  {
    TotalWithin(mine, ids, low, high);
    ScoreRange(mine);
    assert mine[0].userId in ids;
    FilterMembers(mine, By(mine[0].userId));
    assert mine[0] in Filter(mine, By(mine[0].userId));
    ScoreRange(Filter(mine, By(mine[0].userId)));
    if 0 < low { ScoreIsLinear(mine, low, 0); }
    if high < 100 { ScoreIsLinear(mine, 1, high); }
  }

  // ----- The dataset that the repository reads -----

  /** Every user once, and evidence joined to the owner's membership of today. */
  ghost predicate ReadFrom(t: Tables.Tables, users: seq<User>, evidence: seq<Item>) {
    && (forall id :: id in t.accounts.users ==>
          exists i :: 0 <= i < |users| && users[i].id == id && users[i].organizationId == Tables.OrganizationOf(t.accounts, id))
    && (forall i :: 0 <= i < |evidence| ==>
          && evidence[i].userId in t.accounts.users
          && evidence[i].organizationId == Tables.OrganizationOf(t.accounts, evidence[i].userId))
  }

  /** The proviso of the mediant bound holds of every dataset read from the tables. */
  lemma ReadEvidenceIsMembers(t: Tables.Tables, users: seq<User>, evidence: seq<Item>, organizationId: Id, i: nat)
    requires ReadFrom(t, users, evidence) && i < |OrganizationEvidence(evidence, organizationId)|
    ensures exists k :: 0 <= k < |MembersOf(users, organizationId)|
                        && MembersOf(users, organizationId)[k].id == OrganizationEvidence(evidence, organizationId)[i].userId
  {
    var mine := OrganizationEvidence(evidence, organizationId);
    FilterMembers(evidence, (item: Item) => ValidItem(item) && item.organizationId == Some(organizationId));
    assert mine[i] in mine && mine[i] in evidence;
    var id := mine[i].userId;
    var u :| 0 <= u < |users| && users[u].id == id && users[u].organizationId == Tables.OrganizationOf(t.accounts, id);
    FilterMembers(users, (user: User) => user.organizationId == Some(organizationId));
    assert users[u] in MembersOf(users, organizationId);
    var k :| 0 <= k < |MembersOf(users, organizationId)| && MembersOf(users, organizationId)[k] == users[u];
  }
}
