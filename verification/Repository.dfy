/** The SQLite repository: a class whose methods rewrite its tables in place. Each
    method is specified by the transition that `Tables` gives for it. */
module Repository {
  import opened Wrappers
  import opened Tables
  import Steps = Tables
  import Sorting
  import opened Rounding

  datatype AccessGrant = AccessGrant(runId: Id, userId: Id, openVpn: Option<string>, expiresAt: Time, ticketExpiresAt: Time)

  datatype RepositoryError = RunAlreadySubmitted | ConstraintViolated | SeasonOverlapping | SeasonExisting

  class SqliteRepository {
    var users: map<Id, User>
    var organizations: map<Id, Organization>
    var memberships: map<Id, Membership>
    var labs: map<Id, Lab>
    var evidence: map<(Id, string), bool>
    var runs: map<Id, Run>
    var tickets: map<string, Ticket>
    var audit: seq<AuditRow>
    var results: seq<ChallengeResult>
    var scoreEvents: seq<ScoreEvent>
    var seasons: map<Id, Season>
    var records: map<RecordKey, IdempotencyRecord>

    function Snapshot(): Tables
      reads this
    {
      Tables(Accounts(users, organizations, memberships), Content(labs, evidence), Access(runs, tickets, audit),
             Scores(results, scoreEvents), seasons, records)
    }

    constructor ()
      ensures Snapshot() == EMPTY
    {
      users, organizations, memberships := map[], map[], map[];
      labs, evidence := map[], map[];
      runs, tickets, audit := map[], map[], [];
      results, scoreEvents := [], [];
      seasons, records := map[], map[];
    }

    // ----- Users -----

    method SetUserPlatformRole(userId: Id, role: PlatformRole) returns (user: Option<User>)
      modifies this
      ensures Snapshot() == old(Snapshot()).(accounts := Steps.SetUserPlatformRole(old(Snapshot()).accounts, userId, role))
      ensures user == if userId in users then Some(users[userId]) else None
    {
      if userId !in users { return None; }
      users := users[userId := users[userId].(role := role)];
      user := Some(users[userId]);
    }

    method SetUserDisabled(userId: Id, disabled: bool, changedAt: Time) returns (user: Option<User>)
      modifies this
      ensures Snapshot() ==
              old(Snapshot()).(accounts := Steps.SetUserDisabled(old(Snapshot()).accounts, userId, disabled, changedAt))
      ensures user == if userId in users then Some(users[userId]) else None
    {
      if userId !in users { return None; }
      users := users[userId := users[userId].(disabledAt := if disabled then Some(changedAt) else None)];
      user := Some(users[userId]);
    }

    method CreateOrganization(id: Id, organization: Organization) returns (created: bool)
      modifies this
      ensures Snapshot() == old(Snapshot()).(accounts := Steps.CreateOrganization(old(Snapshot()).accounts, id, organization))
      ensures created <==> old(id !in organizations && !SlugOrCodeTaken(Snapshot().accounts, organization))
    {
      if id in organizations || SlugOrCodeTaken(Snapshot().accounts, organization) { return false; }
      organizations := organizations[id := organization];
      created := true;
    }

    method RotateOrganizationJoinCode(id: Id, hash: string) returns (rotated: bool)
      modifies this
      ensures Snapshot() == old(Snapshot()).(accounts := Steps.RotateJoinCode(old(Snapshot()).accounts, id, hash))
      ensures rotated <==> old(CanRotate(Snapshot().accounts, id, hash))
    {
      if !CanRotate(Snapshot().accounts, id, hash) { return false; }
      organizations := organizations[id := organizations[id].(joinCodeHash := hash)];
      rotated := true;
    }

    /** An owner's membership matches neither of the next two statements. */
    method SetOrganizationMemberRole(organizationId: Id, userId: Id, admin: bool) returns (changed: bool)
      modifies this
      ensures Snapshot() ==
              old(Snapshot()).(accounts := Steps.SetOrganizationMemberRole(old(Snapshot()).accounts, organizationId, userId, admin))
      ensures changed <==> old(ManageableMember(Snapshot().accounts, organizationId, userId))
    {
      if !ManageableMember(Snapshot().accounts, organizationId, userId) { return false; }
      memberships := memberships[userId := Membership(organizationId, if admin then OrgAdmin else PlainMember)];
      changed := true;
    }

    method RemoveOrganizationMember(organizationId: Id, userId: Id) returns (removed: bool)
      modifies this
      ensures Snapshot() ==
              old(Snapshot()).(accounts := Steps.RemoveOrganizationMember(old(Snapshot()).accounts, organizationId, userId))
      ensures removed <==> old(ManageableMember(Snapshot().accounts, organizationId, userId))
    {
      if !ManageableMember(Snapshot().accounts, organizationId, userId) { return false; }
      memberships := memberships - {userId};
      removed := true;
    }

    // ----- Labs -----

    method CreateLab(id: Id, ownerId: Id, shape: LabShape, config: map<string, string>) returns (created: bool)
      modifies this
      ensures Snapshot() == old(Snapshot()).(content := Steps.CreateLab(old(Snapshot()), id, ownerId, shape, config))
      ensures created <==> id !in old(labs) && ownerId in users
    {
      if id in labs || ownerId !in users { return false; }
      labs := labs[id := Lab(ownerId, OrganizationOf(Snapshot().accounts, ownerId), shape, Draft, config, None)];
      created := true;
    }

    method UpdateLabConfig(labId: Id, patch: map<string, string>) returns (changed: bool)
      modifies this
      ensures Snapshot() == old(Snapshot()).(content := Steps.UpdateLabConfig(old(Snapshot()).content, labId, patch))
      ensures changed <==> labId in old(labs) && old(labs)[labId].status == Draft
    {
      if labId !in labs || labs[labId].status != Draft { return false; }
      var current := labs[labId].config;
      labs := labs[labId := labs[labId].(config := current + patch)];
      changed := true;
    }

    /** One transaction: upsert every check, then settle the status. Without the
        lab the first insert violates its foreign key and everything rolls back. */
    method SaveValidation(labId: Id, passed: bool, checks: seq<(string, bool)>)
      modifies this
      ensures Snapshot() == old(Snapshot()).(content := Steps.SaveValidation(old(Snapshot()).content, labId, passed, checks))
    {
      if labId !in labs { return; }
      var i := 0;
      while i < |checks|
        invariant 0 <= i <= |checks|
        invariant evidence == UpsertEvidence(old(evidence), labId, checks[..i])
        invariant Snapshot() == old(Snapshot()).(content := Content(old(labs), evidence))
      {
        assert checks[..i + 1][..i] == checks[..i];
        evidence := evidence[(labId, checks[i].0) := checks[i].1];
        i := i + 1;
      }
      assert checks[..i] == checks;
      var status := if labs[labId].adminQuarantine.Some? then Quarantined else if passed then Validated else Quarantined;
      labs := labs[labId := labs[labId].(status := status)];
    }

    method QuarantineLab(labId: Id, quarantine: Quarantine) returns (lab: Option<Lab>)
      modifies this
      ensures Snapshot() == old(Snapshot()).(content := Steps.QuarantineLab(old(Snapshot()).content, labId, quarantine))
      ensures lab == if labId in labs then Some(labs[labId]) else None
    {
      if labId !in labs { return None; }
      labs := labs[labId := labs[labId].(status := Quarantined, adminQuarantine := Some(quarantine))];
      lab := Some(labs[labId]);
    }

    method ReleaseLabQuarantine(labId: Id) returns (lab: Option<Lab>)
      modifies this
      ensures Snapshot() == old(Snapshot()).(content := Steps.ReleaseLabQuarantine(old(Snapshot()).content, labId))
      ensures lab.Some? <==> labId in old(labs) && old(labs)[labId].status == Quarantined
      ensures lab.Some? ==> labId in labs && lab.value == labs[labId]
    {
      if labId !in labs || labs[labId].status != Quarantined { return None; }
      labs := labs[labId := labs[labId].(status := Draft, adminQuarantine := None)];
      lab := Some(labs[labId]);
    }

    // ----- Runs -----

    method CreateRun(id: Id, run: Run) returns (created: bool)
      modifies this
      ensures Snapshot() == old(Snapshot()).(access := Steps.CreateRun(old(Snapshot()), id, run))
      ensures created <==> old(CanCreateRun(Snapshot(), id, run))
    {
      if id in runs || run.labId !in labs || run.userId !in users || Terminal(run.status) { return false; }
      runs := runs[id := run.(termination := None)];
      created := true;
    }

    method UpdateRunReadiness(userId: Id, runId: Id, status: RunStatus) returns (run: Option<Run>)
      requires !Terminal(status)
      modifies this
      ensures Snapshot() == old(Snapshot()).(access := Steps.UpdateRunReadiness(old(Snapshot()).access, userId, runId, status))
      ensures run == if runId in runs && runs[runId].userId == userId then Some(runs[runId]) else None
    {
      if runId !in runs || runs[runId].userId != userId { return None; }
      if status != Provisioning && runs[runId].status == Provisioning {
        runs := runs[runId := runs[runId].(status := status)];
      }
      run := Some(runs[runId]);
    }

    /** The row comes back even when it was terminal already and nothing changed. */
    method MarkRunExpired(runId: Id, expiredAt: Time) returns (run: Option<Run>)
      modifies this
      ensures Snapshot() == old(Snapshot()).(access := Steps.MarkRunExpired(old(Snapshot()).access, runId, expiredAt))
      ensures run == if runId in runs then Some(runs[runId]) else None
    {
      if runId !in runs { return None; }
      if !Terminal(runs[runId].status) {
        runs := runs[runId := Terminated(runs[runId], Expired, Termination(None, expiredAt, TTL_EXPIRED))];
      }
      run := Some(runs[runId]);
    }

    method MarkRunStopped(runId: Id, stoppedAt: Time, actor: Id, reason: string) returns (run: Option<Run>)
      modifies this
      ensures Snapshot() ==
              old(Snapshot()).(access := Steps.MarkRunStopped(old(Snapshot()).access, runId, stoppedAt, actor, reason))
      ensures run == if runId in runs then Some(runs[runId]) else None
    {
      if runId !in runs { return None; }
      if !Terminal(runs[runId].status) {
        runs := runs[runId := Terminated(runs[runId], Stopped, Termination(Some(actor), stoppedAt, reason))];
      }
      run := Some(runs[runId]);
    }

    /** The longest overdue runs first; those with the same deadline in any order. */
    method ListExpiredRunIds(now: Time, limit: nat) returns (ids: seq<Id>)
      ensures Leading(ids, OverdueRuns(runs, now), Deadlines(runs), limit)
      ensures forall id :: id in ids ==> id in runs && runs[id].status in {Provisioning, Ready} && runs[id].expiresAt <= now
      ensures |ids| < limit ==>
                forall id :: id in runs && runs[id].status in {Provisioning, Ready} && runs[id].expiresAt <= now ==> id in ids
      ensures forall i, j :: 0 <= i < j < |ids| ==> runs[ids[i]].expiresAt <= runs[ids[j]].expiresAt
    {
      ids := FirstByRank(OverdueRuns(runs, now), Deadlines(runs), limit);
      if |ids| < limit { LeadingListsAll(ids, OverdueRuns(runs, now), Deadlines(runs), limit); }
      OverdueMeans(runs, now);
    }

    method ListActiveRunIdsForUser(userId: Id) returns (ids: seq<Id>)
      ensures Leading(ids, ActiveRunsOf(runs, userId), CreationTimes(runs), |ActiveRunsOf(runs, userId)|)
      ensures forall id :: id in ids <==> id in runs && runs[id].userId == userId && runs[id].status in {Provisioning, Ready}
      ensures forall i, j :: 0 <= i < j < |ids| ==> runs[ids[i]].createdAt <= runs[ids[j]].createdAt
    {
      ids := FirstByRank(ActiveRunsOf(runs, userId), CreationTimes(runs), |ActiveRunsOf(runs, userId)|);
      LeadingListsAll(ids, ActiveRunsOf(runs, userId), CreationTimes(runs), |ActiveRunsOf(runs, userId)|);
      ActiveRunsMean(runs, userId);
    }

    // ----- Tickets -----

    method CreateAccessTicket(hash: string, runId: Id, userId: Id, kind: TicketKind, expiresAt: Time)
      modifies this
      ensures Snapshot() ==
              old(Snapshot()).(access := Steps.CreateAccessTicket(old(Snapshot()), hash, runId, userId, kind, expiresAt))
    {
      if hash !in tickets && runId in runs && userId in users {
        tickets := tickets[hash := Ticket(runId, userId, kind, expiresAt, None)];
      }
    }

    method ConsumeAccessTicket(hash: string, kind: TicketKind, consumedAt: Time) returns (grant: Option<AccessGrant>)
      modifies this
      ensures Snapshot() ==
              old(Snapshot()).(access := Steps.ConsumeAccessTicket(old(Snapshot()).access, hash, kind, consumedAt))
      ensures grant.Some? <==> old(Redeemable(Snapshot().access, hash, kind, consumedAt))
      ensures grant.Some? ==>
                var ticket := old(tickets)[hash];
                var run := old(runs)[ticket.runId];
                grant.value == AccessGrant(ticket.runId, ticket.userId, run.openVpnProfile, run.expiresAt, ticket.expiresAt)
    {
      if hash !in tickets || tickets[hash].runId !in runs { return None; }
      var ticket := tickets[hash];
      var run := runs[ticket.runId];
      if ticket.kind != kind || ticket.consumedAt.Some? || ticket.expiresAt <= consumedAt || run.status != Ready {
        return None;
      }
      tickets := tickets[hash := ticket.(consumedAt := Some(consumedAt))];
      audit := audit + [AuditRow(Some(ticket.userId), ConsumedAction(kind), ticket.runId)];
      grant := Some(AccessGrant(ticket.runId, ticket.userId, run.openVpnProfile, run.expiresAt, ticket.expiresAt));
    }

    // ----- Results -----

    /** The duplicate check, then both inserts in one transaction: a constraint
        violation restores both tables. */
    method SaveChallengeResult(result: ChallengeResult) returns (outcome: Result<int, RepositoryError>)
      modifies this
      ensures Snapshot() == old(Snapshot()).(scores := Steps.SaveChallengeResult(old(Snapshot()), result))
      ensures outcome.Ok? <==> old(!HasResultForRun(Snapshot().scores, result.runId) && Storable(Snapshot(), result))
      ensures outcome == Err(RunAlreadySubmitted) <==> old(HasResultForRun(Snapshot().scores, result.runId))
      ensures outcome.Ok? ==> 0 <= outcome.value <= 100
      ensures outcome.Ok? ==>
                var exact := result.score as real / result.maxScore as real * 100.0;
                exact - 0.5 < outcome.value as real <= exact + 0.5
    {
      var i := 0;
      while i < |results|
        invariant 0 <= i <= |results|
        invariant forall j :: 0 <= j < i ==> results[j].runId != result.runId
      {
        if results[i].runId == result.runId { return Err(RunAlreadySubmitted); }
        i := i + 1;
      }
      var savedResults, savedEvents := results, scoreEvents;
      ghost var before := Snapshot();
      if !Storable(Snapshot(), result) {
        results, scoreEvents := savedResults, savedEvents;
        return Err(ConstraintViolated);
      }
      results := results + [result];
      scoreEvents := scoreEvents + [ScoreEventFor(Snapshot().accounts, result)];
      outcome := Ok(RoundedPercent(result.score, result.maxScore));
    }

    // ----- Seasons -----

    method CreateSeason(id: Id, season: Season) returns (outcome: Result<Season, RepositoryError>)
      modifies this
      ensures Snapshot() == old(Snapshot()).(seasons := Steps.CreateSeason(old(seasons), id, season))
      ensures outcome == if old(SeasonOverlaps(seasons, season)) then Err(SeasonOverlapping)
                         else if old(SeasonExists(seasons, id, season)) then Err(SeasonExisting)
                         else Ok(season)
    {
      if SeasonOverlaps(seasons, season) { return Err(SeasonOverlapping); }
      if SeasonExists(seasons, id, season) { return Err(SeasonExisting); }
      seasons := seasons[id := season];
      outcome := Ok(season);
    }

    method DeleteSeason(id: Id) returns (deleted: bool)
      modifies this
      ensures Snapshot() == old(Snapshot()).(seasons := Steps.DeleteSeason(old(seasons), id))
      ensures deleted <==> id in old(seasons)
    {
      deleted := id in seasons;
      seasons := seasons - {id};
    }

    // ----- Idempotency records and audit -----

    method SaveIdempotencyRecord(key: RecordKey, record: IdempotencyRecord)
      modifies this
      ensures Snapshot() == old(Snapshot()).(records := Steps.SaveIdempotencyRecord(old(Snapshot()), key, record))
    {
      if key !in records && key.userId in users {
        records := records[key := record];
      }
    }

    method RecordAudit(row: AuditRow)
      modifies this
      ensures Snapshot() == old(Snapshot()).(access := Steps.RecordAudit(old(Snapshot()).access, row))
    {
      audit := audit + [row];
    }
  }

  predicate Overdue(runs: map<Id, Run>, id: Id, now: Time) {
    id in runs && Active(runs[id].status) && runs[id].expiresAt <= now
  }

  function OverdueRuns(runs: map<Id, Run>, now: Time): set<Id> {
    set id | id in runs && Overdue(runs, id, now)
  }

  predicate ActiveRunOf(runs: map<Id, Run>, id: Id, userId: Id) {
    id in runs && runs[id].userId == userId && Active(runs[id].status)
  }

  function ActiveRunsOf(runs: map<Id, Run>, userId: Id): set<Id> {
    set id | id in runs && ActiveRunOf(runs, id, userId)
  }

  function Deadlines(runs: map<Id, Run>): map<Id, Time> { map id | id in runs :: runs[id].expiresAt }

  function CreationTimes(runs: map<Id, Run>): map<Id, Time> { map id | id in runs :: runs[id].createdAt }

  /** `Math.round((points / maxPoints) * 100)`. */
  function RoundedPercent(points: int, maxPoints: int): (percent: int)
    requires 0 <= points <= maxPoints && maxPoints > 0
    ensures 0 <= percent <= 100
    ensures var exact := points as real / maxPoints as real * 100.0; exact - 0.5 < percent as real <= exact + 0.5
  {
    var share := points as real / maxPoints as real;
    ShareWithin(points, maxPoints);
    Round(share * 100.0)
  }

  /** What `ORDER BY rank ASC LIMIT limit` may return: rows with equal rank come
      in any order, and no row left out ranks below one that is listed. */
  ghost predicate Leading(ids: seq<Id>, rows: set<Id>, rank: map<Id, Time>, limit: nat)
    requires rows <= rank.Keys
  {
    && Sorting.Distinct(ids)
    && (forall id :: id in ids ==> id in rows)
    && |ids| == (if limit < |rows| then limit else |rows|)
    && (forall i, j :: 0 <= i < j < |ids| ==> rank[ids[i]] <= rank[ids[j]])
    && (forall id, other :: id in ids && other in rows && other !in ids ==> rank[id] <= rank[other])
  }

  function Listed(ids: seq<Id>): set<Id> { set id | id in ids }

  lemma {:induction false} DistinctCount(ids: seq<Id>)
    requires Sorting.Distinct(ids)
    ensures |Listed(ids)| == |ids|
  {
    if ids != [] {
      DistinctCount(ids[1..]);
      assert Listed(ids) == Listed(ids[1..]) + {ids[0]};
    }
  }

  lemma SubsetOfEqualSize(small: set<Id>, big: set<Id>)
    requires small <= big && |small| == |big|
    ensures small == big
  {
    assert big == small + (big - small);
    assert |big - small| == 0;
  }

  lemma AllListed(ids: seq<Id>, rows: set<Id>)
    requires Sorting.Distinct(ids) && |ids| == |rows|
    requires forall id :: id in ids ==> id in rows
    ensures Listed(ids) == rows
  {
    DistinctCount(ids);
    SubsetOfEqualSize(Listed(ids), rows);
  }

  /** A list that stops short of its limit leaves nothing out. */
  lemma LeadingListsAll(ids: seq<Id>, rows: set<Id>, rank: map<Id, Time>, limit: nat)
    requires rows <= rank.Keys && Leading(ids, rows, rank, limit) && (|ids| < limit || |rows| <= limit)
    ensures forall id :: id in ids <==> id in rows
  {
    AllListed(ids, rows);
    assert forall id :: id in Listed(ids) <==> id in ids;
  }

  /** Overdue runs are those provisioning or ready whose deadline is not in the future. */
  lemma OverdueMeans(runs: map<Id, Run>, now: Time)
    ensures forall id :: id in OverdueRuns(runs, now) <==>
              id in runs && runs[id].status in {Provisioning, Ready} && runs[id].expiresAt <= now
  {}

  lemma ActiveRunsMean(runs: map<Id, Run>, userId: Id)
    ensures forall id :: id in ActiveRunsOf(runs, userId) <==>
              id in runs && runs[id].userId == userId && runs[id].status in {Provisioning, Ready}
  {}

  method FirstByRank(rows: set<Id>, rank: map<Id, Time>, limit: nat) returns (ids: seq<Id>)
    requires rows <= rank.Keys
    ensures Leading(ids, rows, rank, limit)
  {
    ids := [];
    var rest := rows;
    while |ids| < limit && rest != {}
      invariant forall id :: id in rest ==> id in rows && id !in ids
      invariant forall id :: id in rows && id !in rest ==> id in ids
      invariant forall id :: id in ids ==> id in rows
      invariant Sorting.Distinct(ids)
      invariant |ids| + |rest| == |rows|
      invariant |ids| <= limit
      invariant forall i, j :: 0 <= i < j < |ids| ==> rank[ids[i]] <= rank[ids[j]]
      invariant forall id, other :: id in ids && other in rest ==> rank[id] <= rank[other]
      decreases rest
    {
      LeastExists(rest, rank);
      var next :| next in rest && forall other :: other in rest ==> rank[next] <= rank[other];
      ids := ids + [next];
      rest := rest - {next};
    }
  }

  lemma {:induction false} LeastExists(ids: set<Id>, rank: map<Id, Time>)
    requires ids != {} && ids <= rank.Keys
    ensures exists id :: id in ids && forall other :: other in ids ==> rank[id] <= rank[other]
  {
    var some :| some in ids;
    if ids != {some} {
      LeastExists(ids - {some}, rank);
      var best :| best in ids - {some} && forall other :: other in ids - {some} ==> rank[best] <= rank[other];
      var id := if rank[some] <= rank[best] then some else best;
      forall other | other in ids ensures rank[id] <= rank[other] {
        if other != some { assert other in ids - {some}; }
      }
    }
  }
}
