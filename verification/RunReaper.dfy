/** Ending runs in bulk: the TTL sweep and the termination loop of a suspension.
    Both release the runtime and the telemetry of a run before its row leaves the
    active set, and neither lets a failed release keep the row there. */
module RunReaper {
  import opened Wrappers
  import opened Tables
  import Steps = Tables
  import opened Repository
  import Sorting

  /** An adapter outside the process. It remembers what it was asked to destroy, and
      answers with an error for the runs in `failing`. */
  class Adapter {
    const failing: set<Id>
    var asked: seq<Id>

    constructor (failing: set<Id>)
      ensures this.failing == failing && asked == []
    {
      this.failing := failing;
      asked := [];
    }

    method Destroy(id: Id) returns (gone: bool)
      modifies this
      ensures asked == old(asked) + [id]
      ensures gone <==> id !in failing
    {
      asked := asked + [id];
      gone := id !in failing;
    }
  }

  datatype LogLine = RuntimeDestroyFailed(runId: Id) | TelemetryDestroyFailed(runId: Id)

  const EXPIRED_ACTION := "runtime.expired"
  const SUSPENDED_REASON := "account_suspended"

  // ----- What the loops do to the tables -----

  function Ended(runs: map<Id, Run>, ids: set<Id>, status: RunStatus, termination: Termination): map<Id, Run> {
    map id | id in runs :: if id in ids then Terminated(runs[id], status, termination) else runs[id]
  }

  function Swept(a: Access, ids: seq<Id>, now: Time): Access {
    a.(runs := Ended(a.runs, Listed(ids), Expired, Termination(None, now, TTL_EXPIRED)),
       audit := a.audit + ExpiryRows(ids))
  }

  function ExpiryRows(ids: seq<Id>): seq<AuditRow> {
    seq(|ids|, i requires 0 <= i < |ids| => AuditRow(None, EXPIRED_ACTION, ids[i]))
  }

  /** Every active run of the user stops; nothing else changes. */
  function StopRunsOf(a: Access, userId: Id, at: Time, actor: Id, reason: string): Access {
    a.(runs := Ended(a.runs, ActiveRunsOf(a.runs, userId), Stopped, Termination(Some(actor), at, reason)))
  }

  function FailuresOf(id: Id, runtimeFailing: set<Id>, telemetryFailing: set<Id>): seq<LogLine> {
    (if id in runtimeFailing then [RuntimeDestroyFailed(id)] else [])
    + (if id in telemetryFailing then [TelemetryDestroyFailed(id)] else [])
  }

  function FailureLog(ids: seq<Id>, runtimeFailing: set<Id>, telemetryFailing: set<Id>): seq<LogLine>
    decreases |ids|
  {
    if ids == [] then []
    else
      var last := |ids| - 1;
      FailureLog(ids[..last], runtimeFailing, telemetryFailing) + FailuresOf(ids[last], runtimeFailing, telemetryFailing)
  }

  lemma PrefixStep(ids: seq<Id>, i: nat, asked: seq<Id>, runtimeFailing: set<Id>, telemetryFailing: set<Id>)
    requires i < |ids|
    ensures asked + ids[..i + 1] == asked + ids[..i] + [ids[i]]
    ensures FailureLog(ids[..i + 1], runtimeFailing, telemetryFailing)
         == FailureLog(ids[..i], runtimeFailing, telemetryFailing) + FailuresOf(ids[i], runtimeFailing, telemetryFailing)
  {
    assert ids[..i + 1][..i] == ids[..i];
  }

  /** For runs that are all different, the log holds each failure of each adapter exactly
      once, whatever the other adapter did, and nothing else. */
  lemma {:induction false} LogIsExact(ids: seq<Id>, runtimeFailing: set<Id>, telemetryFailing: set<Id>)
    requires Sorting.Distinct(ids)
    ensures forall id :: multiset(FailureLog(ids, runtimeFailing, telemetryFailing))[RuntimeDestroyFailed(id)]
                      == if id in ids && id in runtimeFailing then 1 else 0
    ensures forall id :: multiset(FailureLog(ids, runtimeFailing, telemetryFailing))[TelemetryDestroyFailed(id)]
                      == if id in ids && id in telemetryFailing then 1 else 0
  {
    if ids != [] {
      var last := |ids| - 1;
      LogIsExact(ids[..last], runtimeFailing, telemetryFailing);
      assert ids == ids[..last] + [ids[last]];
      assert ids[last] !in ids[..last];
    }
  }

  // ----- The loops -----

  /** Asks both adapters, the second one whatever the first one answered; each failure
      is logged once and goes no further. */
  method ReleaseRunResources(runtime: Adapter, telemetry: Adapter, id: Id) returns (log: seq<LogLine>)
    requires runtime != telemetry
    modifies runtime, telemetry
    ensures runtime.asked == old(runtime.asked) + [id]
    ensures telemetry.asked == old(telemetry.asked) + [id]
    ensures log == FailuresOf(id, runtime.failing, telemetry.failing)
  {
    log := [];
    var runtimeGone := runtime.Destroy(id);
    if !runtimeGone { log := log + [RuntimeDestroyFailed(id)]; }
    var telemetryGone := telemetry.Destroy(id);
    if !telemetryGone { log := log + [TelemetryDestroyFailed(id)]; }
  }

  method SweepExpiredRuns(repository: SqliteRepository, runtime: Adapter, telemetry: Adapter, now: Time, limit: nat)
    returns (expired: seq<Id>, log: seq<LogLine>)
    requires runtime != telemetry
    modifies repository, runtime, telemetry
    ensures runtime.asked == old(runtime.asked) + expired && telemetry.asked == old(telemetry.asked) + expired
    ensures log == FailureLog(expired, runtime.failing, telemetry.failing)
    ensures Leading(expired, OverdueRuns(old(repository.runs), now), Deadlines(old(repository.runs)), limit)
    ensures repository.Snapshot()
         == old(repository.Snapshot()).(access := Swept(old(repository.Snapshot()).access, expired, now))
  {
    var ids := repository.ListExpiredRunIds(now, limit);
    expired, log := [], [];
    ghost var before := repository.Snapshot();
    assert Ended(before.access.runs, {}, Expired, Termination(None, now, TTL_EXPIRED)) == before.access.runs;
    for i := 0 to |ids|
      invariant expired == ids[..i]
      invariant log == FailureLog(ids[..i], runtime.failing, telemetry.failing)
      invariant runtime.asked == old(runtime.asked) + ids[..i] && telemetry.asked == old(telemetry.asked) + ids[..i]
      invariant repository.Snapshot() == before.(access := Swept(before.access, ids[..i], now))
    {
      var id := ids[i];
      assert id in OverdueRuns(before.access.runs, now);
      SweptStep(before.access, ids, i, now);
      PrefixStep(ids, i, old(runtime.asked), runtime.failing, telemetry.failing);
      PrefixStep(ids, i, old(telemetry.asked), runtime.failing, telemetry.failing);
      var marked, failures := ExpireOne(repository, runtime, telemetry, id, now);
      log := log + failures;
      if marked { expired := expired + [id]; }
    }
    assert ids[..|ids|] == ids;
  }

  method ExpireOne(repository: SqliteRepository, runtime: Adapter, telemetry: Adapter, id: Id, now: Time)
    returns (marked: bool, log: seq<LogLine>)
    requires runtime != telemetry
    modifies repository, runtime, telemetry
    ensures runtime.asked == old(runtime.asked) + [id] && telemetry.asked == old(telemetry.asked) + [id]
    ensures log == FailuresOf(id, runtime.failing, telemetry.failing)
    ensures marked <==> id in old(repository.runs)
    ensures repository.Snapshot()
         == old(repository.Snapshot()).(access :=
              if marked then RecordAudit(MarkRunExpired(old(repository.Snapshot()).access, id, now), AuditRow(None, EXPIRED_ACTION, id))
              else old(repository.Snapshot()).access)
  {
    log := ReleaseRunResources(runtime, telemetry, id);
    var row := repository.MarkRunExpired(id, now);
    marked := row.Some?;
    if marked { repository.RecordAudit(AuditRow(None, EXPIRED_ACTION, id)); }
  }

  lemma SweptStep(a: Access, ids: seq<Id>, i: int, now: Time)
    requires 0 <= i < |ids| && Sorting.Distinct(ids)
    requires ids[i] in a.runs && !Terminal(a.runs[ids[i]].status)
    ensures ids[..i + 1] == ids[..i] + [ids[i]]
    ensures ids[i] in Swept(a, ids[..i], now).runs
    ensures RecordAudit(MarkRunExpired(Swept(a, ids[..i], now), ids[i], now), AuditRow(None, EXPIRED_ACTION, ids[i]))
         == Swept(a, ids[..i + 1], now)
  {
    var before, after := Swept(a, ids[..i], now), Swept(a, ids[..i + 1], now);
    var next := MarkRunExpired(before, ids[i], now);
    assert ids[i] !in ids[..i];
    assert before.runs[ids[i]] == a.runs[ids[i]];
    assert next.runs == before.runs[ids[i] := Terminated(a.runs[ids[i]], Expired, Termination(None, now, TTL_EXPIRED))];
    forall id | id in a.runs ensures next.runs[id] == after.runs[id] {
      assert id in ids[..i + 1] <==> id in ids[..i] || id == ids[i];
    }
    assert next.runs == after.runs;
    assert ExpiryRows(ids[..i + 1]) == ExpiryRows(ids[..i]) + [AuditRow(None, EXPIRED_ACTION, ids[i])];
  }

  method TerminateRunsForUser(repository: SqliteRepository, userId: Id, actor: Id, reason: string, stoppedAt: Time,
                              runtime: Adapter, telemetry: Adapter)
    returns (stopped: seq<Id>, log: seq<LogLine>)
    requires runtime != telemetry
    modifies repository, runtime, telemetry
    ensures runtime.asked == old(runtime.asked) + stopped && telemetry.asked == old(telemetry.asked) + stopped
    ensures log == FailureLog(stopped, runtime.failing, telemetry.failing)
    ensures Leading(stopped, ActiveRunsOf(old(repository.runs), userId), CreationTimes(old(repository.runs)),
                    |ActiveRunsOf(old(repository.runs), userId)|)
    ensures repository.Snapshot()
         == old(repository.Snapshot()).(access := StopRunsOf(old(repository.Snapshot()).access, userId, stoppedAt, actor, reason))
  {
    var ids := repository.ListActiveRunIdsForUser(userId);
    stopped, log := [], [];
    ghost var before := repository.Snapshot();
    ghost var termination := Termination(Some(actor), stoppedAt, reason);
    assert Ended(before.access.runs, {}, Stopped, termination) == before.access.runs;
    for i := 0 to |ids|
      invariant stopped == ids[..i]
      invariant log == FailureLog(ids[..i], runtime.failing, telemetry.failing)
      invariant runtime.asked == old(runtime.asked) + ids[..i] && telemetry.asked == old(telemetry.asked) + ids[..i]
      invariant repository.Snapshot() == before.(access := before.access.(runs :=
                  Ended(before.access.runs, Listed(ids[..i]), Stopped, termination)))
    {
      var id := ids[i];
      assert id in ActiveRunsOf(before.access.runs, userId);
      StoppedStep(before.access, ids, i, stoppedAt, actor, reason);
      PrefixStep(ids, i, old(runtime.asked), runtime.failing, telemetry.failing);
      PrefixStep(ids, i, old(telemetry.asked), runtime.failing, telemetry.failing);
      var marked, failures := StopOne(repository, runtime, telemetry, id, stoppedAt, actor, reason);
      log := log + failures;
      if marked { stopped := stopped + [id]; }
    }
    assert ids[..|ids|] == ids;
    AllListed(ids, ActiveRunsOf(before.access.runs, userId));
  }

  method StopOne(repository: SqliteRepository, runtime: Adapter, telemetry: Adapter, id: Id, at: Time, actor: Id, reason: string)
    returns (marked: bool, log: seq<LogLine>)
    requires runtime != telemetry
    modifies repository, runtime, telemetry
    ensures runtime.asked == old(runtime.asked) + [id] && telemetry.asked == old(telemetry.asked) + [id]
    ensures log == FailuresOf(id, runtime.failing, telemetry.failing)
    ensures marked <==> id in old(repository.runs)
    ensures repository.Snapshot()
         == old(repository.Snapshot()).(access := Steps.MarkRunStopped(old(repository.Snapshot()).access, id, at, actor, reason))
  {
    log := ReleaseRunResources(runtime, telemetry, id);
    var row := repository.MarkRunStopped(id, at, actor, reason);
    marked := row.Some?;
  }

  lemma StoppedStep(a: Access, ids: seq<Id>, i: int, at: Time, actor: Id, reason: string)
    requires 0 <= i < |ids| && Sorting.Distinct(ids)
    requires ids[i] in a.runs && !Terminal(a.runs[ids[i]].status)
    ensures ids[..i + 1] == ids[..i] + [ids[i]]
    ensures var termination := Termination(Some(actor), at, reason);
            var before := Ended(a.runs, Listed(ids[..i]), Stopped, termination);
            && ids[i] in before
            && MarkRunStopped(a.(runs := before), ids[i], at, actor, reason)
            == a.(runs := Ended(a.runs, Listed(ids[..i + 1]), Stopped, termination))
  {
    var termination := Termination(Some(actor), at, reason);
    var before := Ended(a.runs, Listed(ids[..i]), Stopped, termination);
    var after := Ended(a.runs, Listed(ids[..i + 1]), Stopped, termination);
    assert ids[i] !in ids[..i];
    assert before[ids[i]] == a.runs[ids[i]];
    forall id | id in a.runs ensures before[ids[i] := Terminated(a.runs[ids[i]], Stopped, termination)][id] == after[id] {
      assert id in ids[..i + 1] <==> id in ids[..i] || id == ids[i];
    }
    assert before[ids[i] := Terminated(a.runs[ids[i]], Stopped, termination)] == after;
  }

  // ----- Progress of the sweep -----

  function ActiveRuns(runs: map<Id, Run>): set<Id> {
    set id | id in runs && Active(runs[id].status)
  }

  /** One complete sweep, whatever order ties were listed in. */
  ghost predicate Sweep(a: Access, b: Access, ids: seq<Id>, now: Time, limit: nat) {
    Leading(ids, OverdueRuns(a.runs, now), Deadlines(a.runs), limit) && b == Swept(a, ids, now)
  }

  lemma SweepEndsExactly(a: Access, b: Access, ids: seq<Id>, now: Time, limit: nat)
    requires Sweep(a, b, ids, now, limit)
    ensures OverdueRuns(b.runs, now) == OverdueRuns(a.runs, now) - Listed(ids)
    ensures ActiveRuns(b.runs) == ActiveRuns(a.runs) - Listed(ids)
    ensures b.runs.Keys == a.runs.Keys && b.tickets == a.tickets
    ensures forall id :: id in a.runs && id !in ids ==> b.runs[id] == a.runs[id]
  {
    forall id | id in a.runs
      ensures id in ids ==> b.runs[id].status == Expired
      ensures id !in ids ==> b.runs[id] == a.runs[id]
    {}
    forall id ensures id in OverdueRuns(b.runs, now) <==> id in OverdueRuns(a.runs, now) && id !in ids {}
    forall id ensures id in ActiveRuns(b.runs) <==> id in ActiveRuns(a.runs) && id !in ids {}
  }

  /** Each sweep takes exactly min(limit, overdue) runs out of the active set, the
      longest overdue ones, and writes one audit row for each of them. */
  lemma SweepProgress(a: Access, b: Access, ids: seq<Id>, now: Time, limit: nat)
    requires Sweep(a, b, ids, now, limit)
    ensures var taken := if limit < |OverdueRuns(a.runs, now)| then limit else |OverdueRuns(a.runs, now)|;
            && |OverdueRuns(b.runs, now)| == |OverdueRuns(a.runs, now)| - taken
            && |ActiveRuns(b.runs)| == |ActiveRuns(a.runs)| - taken
            && |b.audit| == |a.audit| + taken
    ensures forall id, other :: id in ids && other in OverdueRuns(b.runs, now) ==>
              a.runs[id].expiresAt <= b.runs[other].expiresAt
  {
    SweepEndsExactly(a, b, ids, now, limit);
    DistinctCount(ids);
    var gone := Listed(ids);
    assert gone <= OverdueRuns(a.runs, now) <= ActiveRuns(a.runs);
    forall id, other | id in ids && other in OverdueRuns(b.runs, now)
      ensures a.runs[id].expiresAt <= b.runs[other].expiresAt
    {
      assert other in OverdueRuns(a.runs, now) && other !in ids;
      assert Deadlines(a.runs)[id] <= Deadlines(a.runs)[other];
    }
  }

  /** A history of sweeps at one fixed time. */
  ghost predicate Sweeping(states: seq<Access>, chosen: seq<seq<Id>>, now: Time, limit: nat) {
    |states| == |chosen| + 1
    && forall k :: 0 <= k < |chosen| ==> Sweep(states[k], states[k + 1], chosen[k], now, limit)
  }

  /** How many runs so many sweeps can end. */
  function Capacity(sweeps: nat, limit: nat): nat { if sweeps == 0 then 0 else Capacity(sweeps - 1, limit) + limit }

  lemma {:induction false} BacklogAfter(states: seq<Access>, chosen: seq<seq<Id>>, now: Time, limit: nat, k: nat)
    requires Sweeping(states, chosen, now, limit)
    requires k < |states|
    ensures var backlog := |OverdueRuns(states[0].runs, now)|;
            |OverdueRuns(states[k].runs, now)| == if Capacity(k, limit) < backlog then backlog - Capacity(k, limit) else 0
    decreases k
  {
    if k > 0 {
      BacklogAfter(states, chosen, now, limit, k - 1);
      SweepProgress(states[k - 1], states[k], chosen[k - 1], now, limit);
    }
  }

  /** A positive limit makes the capacity of enough sweeps exceed any backlog. */
  lemma {:induction false} CapacityGrows(sweeps: nat, limit: nat)
    requires limit > 0
    ensures Capacity(sweeps, limit) >= sweeps
  {
    if sweeps > 0 { CapacityGrows(sweeps - 1, limit); }
  }

  /** Enough sweeps at a fixed time leave no overdue run active. */
  lemma SweepsTerminate(states: seq<Access>, chosen: seq<seq<Id>>, now: Time, limit: nat)
    requires Sweeping(states, chosen, now, limit)
    requires |OverdueRuns(states[0].runs, now)| <= Capacity(|chosen|, limit)
    ensures forall id :: !Overdue(states[|chosen|].runs, id, now)
  {
    BacklogAfter(states, chosen, now, limit, |chosen|);
    var last := states[|chosen|].runs;
    forall id ensures !Overdue(last, id, now) {
      assert OverdueRuns(last, now) == {};
      assert id !in OverdueRuns(last, now);
    }
  }

  /** `run` still occupies the runtime. */
  predicate Alive(run: Run) { run.status == Provisioning || run.status == Ready }

  /** In terms of the rows alone: what a sweep ends had run out, what had not run out
      keeps running, and a sweep that is not cut short leaves nothing behind. */
  lemma SweepTakesWhatRanOut(a: Access, b: Access, ids: seq<Id>, now: Time, limit: nat)
    requires Sweep(a, b, ids, now, limit)
    ensures forall id :: id in ids ==>
              && id in a.runs && Alive(a.runs[id]) && a.runs[id].expiresAt <= now
              && b.runs[id] == a.runs[id].(status := Expired, browserUrl := None, openVpnProfile := None,
                                           termination := Some(Termination(None, now, "ttl_expired")))
    ensures forall id :: id in a.runs && (!Alive(a.runs[id]) || now < a.runs[id].expiresAt) ==> id in b.runs && b.runs[id] == a.runs[id]
    ensures |ids| < limit ==> forall id :: id in b.runs && Alive(b.runs[id]) ==> now < b.runs[id].expiresAt
    ensures forall i, j :: 0 <= i < j < |ids| ==> a.runs[ids[i]].expiresAt <= a.runs[ids[j]].expiresAt
  {
    OverdueMeans(a.runs, now);
    OverdueMeans(b.runs, now);
    SweepEndsExactly(a, b, ids, now, limit);
    if |ids| < limit { LeadingListsAll(ids, OverdueRuns(a.runs, now), Deadlines(a.runs), limit); }
    forall id | id in b.runs && Alive(b.runs[id]) && |ids| < limit ensures now < b.runs[id].expiresAt {
      assert id !in OverdueRuns(b.runs, now);
    }
    forall i, j | 0 <= i < j < |ids| ensures a.runs[ids[i]].expiresAt <= a.runs[ids[j]].expiresAt {
      assert ids[i] in ids && ids[j] in ids;
      assert Deadlines(a.runs)[ids[i]] <= Deadlines(a.runs)[ids[j]];
    }
  }

  lemma {:induction false} RowsOutlastSweeps(states: seq<Access>, chosen: seq<seq<Id>>, now: Time, limit: nat, k: nat)
    requires Sweeping(states, chosen, now, limit) && k < |states|
    ensures forall id :: id in states[0].runs && (!Alive(states[0].runs[id]) || now < states[0].runs[id].expiresAt) ==>
              id in states[k].runs && states[k].runs[id] == states[0].runs[id]
  {
    if k > 0 {
      RowsOutlastSweeps(states, chosen, now, limit, k - 1);
      SweepTakesWhatRanOut(states[k - 1], states[k], chosen[k - 1], now, limit);
    }
  }

  lemma OverdueAreRuns(runs: map<Id, Run>, now: Time)
    ensures |OverdueRuns(runs, now)| <= |runs|
  {
    assert OverdueRuns(runs, now) <= runs.Keys;
    SubsetNoLarger(OverdueRuns(runs, now), runs.Keys);
  }

  lemma SubsetNoLarger(small: set<Id>, big: set<Id>)
    requires small <= big
    ensures |small| <= |big|
  {
    assert big == small + (big - small);
  }

  /** As many sweeps as there are runs suffice, whatever the positive limit: no run is
      alive past its deadline, and no run that had time left was touched. */
  lemma SweepsFinish(states: seq<Access>, chosen: seq<seq<Id>>, now: Time, limit: nat)
    requires Sweeping(states, chosen, now, limit) && limit > 0 && |chosen| >= |states[0].runs|
    ensures var last := states[|chosen|].runs;
            && (forall id :: id in last && Alive(last[id]) ==> now < last[id].expiresAt)
            && (forall id :: id in states[0].runs && now < states[0].runs[id].expiresAt ==> id in last && last[id] == states[0].runs[id])
  {
    OverdueAreRuns(states[0].runs, now);
    CapacityGrows(|chosen|, limit);
    SweepsTerminate(states, chosen, now, limit);
    RowsOutlastSweeps(states, chosen, now, limit, |chosen|);
    var last := states[|chosen|].runs;
    forall id | id in last && Alive(last[id]) ensures now < last[id].expiresAt {
      assert !Overdue(last, id, now);
    }
  }

  // ----- What a termination loop leaves -----

  lemma StopRunsOfEnds(a: Access, userId: Id, at: Time, actor: Id, reason: string)
    ensures var b := StopRunsOf(a, userId, at, actor, reason);
            && b.runs.Keys == a.runs.Keys
            && ActiveRunsOf(b.runs, userId) == {}
            && (forall other :: other != userId ==> ActiveRunsOf(b.runs, other) == ActiveRunsOf(a.runs, other))
            && (forall id :: id in a.runs && id !in ActiveRunsOf(a.runs, userId) ==> b.runs[id] == a.runs[id])
            && (forall id :: id in b.runs && b.runs[id].userId == userId ==> !Alive(b.runs[id]))
            && (forall id :: id in a.runs && (a.runs[id].userId != userId || !Alive(a.runs[id])) ==> b.runs[id] == a.runs[id])
            && (forall id :: id in a.runs && a.runs[id].userId == userId && Alive(a.runs[id]) ==>
                  b.runs[id] == a.runs[id].(status := Stopped, browserUrl := None, openVpnProfile := None,
                                            termination := Some(Termination(Some(actor), at, reason))))
  {
    ActiveRunsMean(a.runs, userId);
    var b := StopRunsOf(a, userId, at, actor, reason);
    forall id | id in a.runs
      ensures b.runs[id].userId == a.runs[id].userId
      ensures ActiveRunOf(a.runs, id, userId) ==> b.runs[id].status == Stopped
      ensures !ActiveRunOf(a.runs, id, userId) ==> b.runs[id] == a.runs[id]
    {}
    forall other | other != userId ensures ActiveRunsOf(b.runs, other) == ActiveRunsOf(a.runs, other) {
      forall id ensures id in ActiveRunsOf(b.runs, other) <==> id in ActiveRunsOf(a.runs, other) {}
    }
  }
}
