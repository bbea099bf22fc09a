/** Seasons never overlap, so the active-season query has at most one candidate. */
module SeasonCalendar {
  import opened Wrappers
  import opened Tables

  /** The half-open interval [startsAt, endsAt) contains the instant. */
  predicate Covers(s: Season, at: Time) {
    s.startsAt <= at < s.endsAt
  }

  ghost predicate SeasonInvariant(seasons: map<Id, Season>) {
    && (forall a, b, at :: a in seasons && b in seasons && Covers(seasons[a], at) && Covers(seasons[b], at) ==> a == b)
    && (forall a, b :: a in seasons && b in seasons && seasons[a].slug == seasons[b].slug ==> a == b)
  }

  lemma CreatingKeepsSeasonsApart(seasons: map<Id, Season>, id: Id, season: Season)
    requires SeasonInvariant(seasons)
    ensures SeasonInvariant(CreateSeason(seasons, id, season))
  {
    assert forall a, at :: a in seasons && Covers(seasons[a], at) && Covers(season, at) ==> Overlaps(seasons[a], season);
  }

  /** In every reachable state seasons are pairwise disjoint with distinct slugs. */
  lemma {:induction false} SeasonsDisjointReachable(t: Tables, calls: seq<Call>)
    requires SeasonInvariant(t.seasons)
    ensures SeasonInvariant(ApplyAll(t, calls).seasons)
    decreases calls
  {
    if calls != [] {
      if calls[0].OnSeasons? && calls[0].season.Some? {
        CreatingKeepsSeasonsApart(t.seasons, calls[0].seasonId, calls[0].season.value);
      }
      SeasonsDisjointReachable(Apply(t, calls[0]), calls[1..]);
    }
  }

  /** What `ORDER BY starts_at DESC LIMIT 1` picks among the seasons covering the instant. */
  ghost predicate PickedAsActive(seasons: map<Id, Season>, at: Time, id: Id) {
    && id in seasons && Covers(seasons[id], at)
    && forall other :: other in seasons && Covers(seasons[other], at) ==>
         seasons[other].startsAt <= seasons[id].startsAt
  }

  /** Reachable from empty tables, the one-row query is exact: a season is returned
      exactly when it covers the instant, and no second season was cut off. */
  lemma LimitOneHidesNothing(calls: seq<Call>, at: Time, id: Id)
    ensures var seasons := ApplyAll(EMPTY, calls).seasons;
            && (id in seasons ==> (PickedAsActive(seasons, at, id) <==> Covers(seasons[id], at)))
            && (forall other :: PickedAsActive(seasons, at, id) && PickedAsActive(seasons, at, other) ==> other == id)
  {
    SeasonsDisjointReachable(EMPTY, calls);
  }

  /** A proper season is turned away exactly when it shares an instant with a
      season on record or clashes on identity; otherwise it is stored as given. */
  lemma RefusedExactlyOnClash(seasons: map<Id, Season>, id: Id, season: Season)
    requires forall s :: s in seasons ==> seasons[s].startsAt < seasons[s].endsAt
    requires season.startsAt < season.endsAt
    ensures if SeasonExists(seasons, id, season)
               || exists s, at :: s in seasons && Covers(seasons[s], at) && Covers(season, at)
            then CreateSeason(seasons, id, season) == seasons
            else CreateSeason(seasons, id, season) == seasons[id := season]
  {
    forall s | s in seasons
      ensures Overlaps(seasons[s], season) <==> exists at :: Covers(seasons[s], at) && Covers(season, at)
    {
      var later := if seasons[s].startsAt < season.startsAt then season.startsAt else seasons[s].startsAt;
      assert Overlaps(seasons[s], season) ==> Covers(seasons[s], later) && Covers(season, later);
    }
  }

  /** In terms of the rows: what can be reached from empty tables never has two seasons at
      one instant or under one slug, and the query finds the one that has begun and not
      ended. */
  lemma SeasonsInRows(calls: seq<Call>, at: Time)
    ensures var seasons := ApplyAll(EMPTY, calls).seasons;
            && (forall a, b :: a in seasons && b in seasons && a != b ==>
                  && !(seasons[a].startsAt <= at < seasons[a].endsAt && seasons[b].startsAt <= at < seasons[b].endsAt)
                  && seasons[a].slug != seasons[b].slug)
            && (forall id :: PickedAsActive(seasons, at, id) <==> id in seasons && seasons[id].startsAt <= at && at < seasons[id].endsAt)
  {
    SeasonsDisjointReachable(EMPTY, calls);
    var seasons := ApplyAll(EMPTY, calls).seasons;
    forall id ensures PickedAsActive(seasons, at, id) <==> id in seasons && seasons[id].startsAt <= at && at < seasons[id].endsAt {
      LimitOneHidesNothing(calls, at, id);
    }
  }

  /** Back to back is no overlap: a season may begin at the instant another one ends. */
  lemma BackToBack(seasons: map<Id, Season>, id: Id, season: Season)
    requires season.startsAt < season.endsAt && id !in seasons
    requires forall s :: s in seasons ==>
               seasons[s].slug != season.slug && (seasons[s].endsAt <= season.startsAt || season.endsAt <= seasons[s].startsAt)
    ensures CreateSeason(seasons, id, season) == seasons[id := season]
  {}
}
