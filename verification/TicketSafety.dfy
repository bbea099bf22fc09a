/** Runs only move forward, and an access ticket opens a run at most once. */
module TicketSafety {
  import opened Wrappers
  import opened Tables

  // ----- Run lifecycle -----

  /** Provisioning, then ready or failed, then stopped or expired. */
  function Stage(status: RunStatus): nat {
    match status
    case Provisioning => 0
    case Ready => 1
    case Failed => 1
    case Stopped => 2
    case Expired => 2
  }

  ghost predicate RunAdvances(before: Access, after: Access, id: Id)
    requires id in before.runs
  {
    && id in after.runs
    && after.runs[id].userId == before.runs[id].userId
    && after.runs[id].expiresAt == before.runs[id].expiresAt
    && Stage(before.runs[id].status) <= Stage(after.runs[id].status)
    && (Stage(before.runs[id].status) == Stage(after.runs[id].status) ==>
          after.runs[id] == before.runs[id])
  }

  lemma ExpiryAdvances(a: Access, other: Id, at: Time, id: Id)
    requires id in a.runs
    ensures RunAdvances(a, MarkRunExpired(a, other, at), id)
  {
    if other in a.runs && !Terminal(a.runs[other].status) {
      assert MarkRunExpired(a, other, at).runs[other].status == Expired;
    }
  }

  lemma StopAdvances(a: Access, other: Id, at: Time, actor: Id, reason: string, id: Id)
    requires id in a.runs
    ensures RunAdvances(a, MarkRunStopped(a, other, at, actor, reason), id)
  {
    if other in a.runs && !Terminal(a.runs[other].status) {
      assert MarkRunStopped(a, other, at, actor, reason).runs[other].status == Stopped;
    }
  }

  lemma AccessCallAdvances(t: Tables, call: AccessCall, id: Id)
    requires id in t.access.runs
    ensures RunAdvances(t.access, ApplyAccess(t, call), id)
  {
    match call
    case CallCreateRun(other, run) => assert RunAdvances(t.access, CreateRun(t, other, run), id);
    case CallUpdateRunReadiness(userId, other, status) =>
      assert RunAdvances(t.access, UpdateRunReadiness(t.access, userId, other, status), id);
    case CallMarkRunExpired(other, at) => ExpiryAdvances(t.access, other, at, id);
    case CallMarkRunStopped(other, at, actor, reason) => StopAdvances(t.access, other, at, actor, reason, id);
    case CallCreateAccessTicket(_, _, _, _, _) => assert ApplyAccess(t, call).runs == t.access.runs;
    case CallConsumeAccessTicket(_, _, _) => assert ApplyAccess(t, call).runs == t.access.runs;
    case CallRecordAudit(_) =>
  }

  lemma StepAdvances(t: Tables, call: Call, id: Id)
    requires id in t.access.runs
    ensures RunAdvances(t.access, Apply(t, call).access, id)
  {
    if call.OnAccess? { AccessCallAdvances(t, call.access, id); }
  }

  /** Along any trace a run keeps its owner and deadline and never goes back a
      stage; while its stage stays the same, nothing about it changes. Stopped
      and expired runs are therefore frozen for good. */
  lemma {:induction false} RunsOnlyAdvance(t: Tables, calls: seq<Call>, id: Id)
    requires id in t.access.runs
    ensures RunAdvances(t.access, ApplyAll(t, calls).access, id)
    decreases calls
  {
    if calls != [] {
      StepAdvances(t, calls[0], id);
      RunsOnlyAdvance(Apply(t, calls[0]), calls[1..], id);
    }
  }

  predicate IsReady(a: Access, id: Id) { id in a.runs && a.runs[id].status == Ready }

  function TimesBecomingReady(t: Tables, calls: seq<Call>, id: Id): nat
    decreases calls
  {
    if calls == [] then 0
    else
      var next := Apply(t, calls[0]);
      (if !IsReady(t.access, id) && IsReady(next.access, id) then 1 else 0) + TimesBecomingReady(next, calls[1..], id)
  }

  lemma {:induction false} ReadyAtMostOnce(t: Tables, calls: seq<Call>, id: Id)
    ensures TimesBecomingReady(t, calls, id) <= 1
    ensures id in t.access.runs && t.access.runs[id].status != Provisioning ==> TimesBecomingReady(t, calls, id) == 0
    decreases calls
  {
    if calls != [] {
      if id in t.access.runs { StepAdvances(t, calls[0], id); }
      ReadyAtMostOnce(Apply(t, calls[0]), calls[1..], id);
    }
  }

  // ----- Redeeming tickets -----

  predicate IsRedemption(a: Access, call: Call) {
    && call.OnAccess? && call.access.CallConsumeAccessTicket?
    && Redeemable(a, call.access.hash, call.access.kind, call.access.at)
  }

  predicate Redeems(a: Access, call: Call, hash: string) {
    IsRedemption(a, call) && call.access.hash == hash
  }

  predicate Consumed(a: Access, hash: string) {
    hash in a.tickets && a.tickets[hash].consumedAt.Some?
  }

  function Redemptions(t: Tables, calls: seq<Call>, hash: string): nat
    decreases calls
  {
    if calls == [] then 0
    else (if Redeems(t.access, calls[0], hash) then 1 else 0) + Redemptions(Apply(t, calls[0]), calls[1..], hash)
  }

  ghost predicate SpentInTime(before: Access, after: Access, hash: string, at: Time)
    requires hash in before.tickets && hash in after.tickets
  {
    && at < before.tickets[hash].expiresAt
    && before.tickets[hash].consumedAt == None
    && after.tickets[hash] == before.tickets[hash].(consumedAt := Some(at))
    && IsReady(before, before.tickets[hash].runId)
  }

  ghost predicate TicketKept(before: Access, after: Access, hash: string)
    requires hash in before.tickets
  {
    && hash in after.tickets
    && (after.tickets[hash] == before.tickets[hash] || exists at :: SpentInTime(before, after, hash, at))
  }

  lemma AccessCallKeepsTicket(t: Tables, call: AccessCall, hash: string)
    requires hash in t.access.tickets
    ensures TicketKept(t.access, ApplyAccess(t, call), hash)
    ensures Redeems(t.access, OnAccess(call), hash) <==>
            !Consumed(t.access, hash) && Consumed(ApplyAccess(t, call), hash)
  {
    if Redeems(t.access, OnAccess(call), hash) {
      assert SpentInTime(t.access, ApplyAccess(t, call), hash, call.at);
    } else {
      assert ApplyAccess(t, call).tickets[hash] == t.access.tickets[hash];
    }
  }

  lemma StepKeepsTicket(t: Tables, call: Call, hash: string)
    requires hash in t.access.tickets
    ensures TicketKept(t.access, Apply(t, call).access, hash)
    ensures Redeems(t.access, call, hash) <==> !Consumed(t.access, hash) && Consumed(Apply(t, call).access, hash)
  {
    if call.OnAccess? { AccessCallKeepsTicket(t, call.access, hash); }
  }

  lemma NewTicketUnspent(t: Tables, call: Call, hash: string)
    requires hash !in t.access.tickets
    ensures !Consumed(Apply(t, call).access, hash)
    ensures hash in Apply(t, call).access.tickets ==>
            Apply(t, call).access.tickets[hash].runId in Apply(t, call).access.runs
  {}

  /** Over any trace the number of successful redemptions of a ticket is exactly
      the change of its consumed flag, so no ticket is ever redeemed twice. */
  lemma {:induction false} RedeemedAtMostOnce(t: Tables, calls: seq<Call>, hash: string)
    ensures Redemptions(t, calls, hash) + (if Consumed(t.access, hash) then 1 else 0)
            == if Consumed(ApplyAll(t, calls).access, hash) then 1 else 0
    decreases calls
  {
    if calls != [] {
      if hash in t.access.tickets { StepKeepsTicket(t, calls[0], hash); } else { NewTicketUnspent(t, calls[0], hash); }
      RedeemedAtMostOnce(Apply(t, calls[0]), calls[1..], hash);
    }
  }

  /** A redemption needs the ticket's own kind, an unspent ticket, a moment
      strictly before its expiry and a ready run, and nothing else; otherwise
      the call changes nothing. It spends that ticket and touches no other, no run. */
  lemma RedeemsExactlyWhen(a: Access, hash: string, kind: TicketKind, at: Time)
    requires hash in a.tickets
    ensures Redeems(a, OnAccess(CallConsumeAccessTicket(hash, kind, at)), hash) <==>
            && kind == a.tickets[hash].kind && !Consumed(a, hash)
            && at < a.tickets[hash].expiresAt && IsReady(a, a.tickets[hash].runId)
    ensures (ConsumeAccessTicket(a, hash, kind, at) != a) <==>
            Redeems(a, OnAccess(CallConsumeAccessTicket(hash, kind, at)), hash)
    ensures var after := ConsumeAccessTicket(a, hash, kind, at);
            && after.runs == a.runs && after.tickets.Keys == a.tickets.Keys
            && (forall h :: h in a.tickets && h != hash ==> after.tickets[h] == a.tickets[h])
            && (Redeems(a, OnAccess(CallConsumeAccessTicket(hash, kind, at)), hash) ==>
                  after.tickets[hash] == a.tickets[hash].(consumedAt := Some(at)))
  {
    if Redeems(a, OnAccess(CallConsumeAccessTicket(hash, kind, at)), hash) {
      assert Consumed(ConsumeAccessTicket(a, hash, kind, at), hash);
    }
  }

  function RunRedemptions(t: Tables, calls: seq<Call>, runId: Id): nat
    decreases calls
  {
    if calls == [] then 0
    else
      (if IsRedemption(t.access, calls[0]) && t.access.tickets[calls[0].access.hash].runId == runId then 1 else 0)
      + RunRedemptions(Apply(t, calls[0]), calls[1..], runId)
  }

  /** Once a run has left provisioning and is not ready, no ticket for it, old
      or issued later, can ever be redeemed. */
  lemma {:induction false} NoRedemptionUnlessReady(t: Tables, calls: seq<Call>, runId: Id)
    requires runId in t.access.runs
    requires t.access.runs[runId].status != Provisioning && t.access.runs[runId].status != Ready
    ensures RunRedemptions(t, calls, runId) == 0
    decreases calls
  {
    if calls != [] {
      StepAdvances(t, calls[0], runId);
      NoRedemptionUnlessReady(Apply(t, calls[0]), calls[1..], runId);
    }
  }

  /** Whatever interleaving made a ready run stop being ready, its tickets are
      dead from then on. */
  lemma LeavingReadyEndsAccess(t: Tables, before: seq<Call>, later: seq<Call>, runId: Id)
    requires IsReady(t.access, runId)
    requires !IsReady(ApplyAll(t, before).access, runId)
    ensures RunRedemptions(ApplyAll(t, before), later, runId) == 0
  {
    RunsOnlyAdvance(t, before, runId);
    NoRedemptionUnlessReady(ApplyAll(t, before), later, runId);
  }

  // ----- Reachable states -----

  ghost predicate TicketSound(a: Access, h: string)
    requires h in a.tickets
  {
    && a.tickets[h].runId in a.runs
    && (Consumed(a, h) ==>
          && a.tickets[h].consumedAt.value < a.tickets[h].expiresAt
          && a.runs[a.tickets[h].runId].status in {Ready, Stopped, Expired})
  }

  ghost predicate TerminatedRunsClosed(a: Access) {
    forall id :: id in a.runs && Terminal(a.runs[id].status) ==>
      && a.runs[id].browserUrl == None && a.runs[id].openVpnProfile == None
      && a.runs[id].termination.Some?
  }

  ghost predicate AccessInvariant(a: Access) {
    (forall h :: h in a.tickets ==> TicketSound(a, h)) && TerminatedRunsClosed(a)
  }

  lemma AccessCallClosesTerminatedRuns(t: Tables, call: AccessCall)
    requires TerminatedRunsClosed(t.access)
    ensures TerminatedRunsClosed(ApplyAccess(t, call))
  {
    match call
    case CallCreateRun(id, run) =>
    case CallUpdateRunReadiness(userId, id, status) =>
    case CallMarkRunExpired(id, at) =>
    case CallMarkRunStopped(id, at, actor, reason) =>
    case CallCreateAccessTicket(hash, runId, userId, kind, expiresAt) =>
    case CallConsumeAccessTicket(hash, kind, at) =>
    case CallRecordAudit(row) =>
  }

  lemma StepClosesTerminatedRuns(t: Tables, call: Call)
    requires TerminatedRunsClosed(t.access)
    ensures TerminatedRunsClosed(Apply(t, call).access)
  {
    match call
    case OnAccess(access) => AccessCallClosesTerminatedRuns(t, access);
    case _ => assert Apply(t, call).access == t.access;
  }

  lemma SoundnessCarries(before: Access, after: Access, h: string)
    requires h in before.tickets && TicketSound(before, h)
    requires TicketKept(before, after, h)
    requires RunAdvances(before, after, before.tickets[h].runId)
    ensures TicketSound(after, h)
  {}

  lemma StepKeepsAccessInvariant(t: Tables, call: Call)
    requires AccessInvariant(t.access)
    ensures AccessInvariant(Apply(t, call).access)
  {
    var after := Apply(t, call).access;
    forall h | h in after.tickets ensures TicketSound(after, h) {
      if h in t.access.tickets {
        StepKeepsTicket(t, call, h);
        StepAdvances(t, call, t.access.tickets[h].runId);
        SoundnessCarries(t.access, after, h);
      } else {
        NewTicketUnspent(t, call, h);
      }
    }
    StepClosesTerminatedRuns(t, call);
  }

  /** In every reachable state each spent ticket was spent before it expired on a
      run that had become ready, and terminated runs expose no endpoint. */
  lemma {:induction false} AccessInvariantReachable(t: Tables, calls: seq<Call>)
    requires AccessInvariant(t.access)
    ensures AccessInvariant(ApplyAll(t, calls).access)
    decreases calls
  {
    if calls != [] {
      StepKeepsAccessInvariant(t, calls[0]);
      AccessInvariantReachable(Apply(t, calls[0]), calls[1..]);
    }
  }

  // ----- The audit trail counts redemptions -----

  predicate IsConsumedAction(action: string) {
    action == ConsumedAction(Desktop) || action == ConsumedAction(OpenVpn)
  }

  function ConsumedRows(audit: seq<AuditRow>): nat {
    if audit == [] then 0
    else (if IsConsumedAction(audit[|audit| - 1].action) then 1 else 0) + ConsumedRows(audit[..|audit| - 1])
  }

  ghost function ConsumedTickets(a: Access): set<string> {
    set h | h in a.tickets && Consumed(a, h)
  }

  predicate RecordsByHand(call: Call) {
    call.OnAccess? && call.access.CallRecordAudit? && IsConsumedAction(call.access.row.action)
  }

  /** Rows that `recordAudit` itself wrote under a redemption's action name. */
  function RecordedByHand(calls: seq<Call>): nat {
    if calls == [] then 0
    else (if RecordsByHand(calls[0]) then 1 else 0) + RecordedByHand(calls[1..])
  }

  lemma AppendedRow(audit: seq<AuditRow>, row: AuditRow)
    ensures ConsumedRows(audit + [row]) == ConsumedRows(audit) + if IsConsumedAction(row.action) then 1 else 0
  {
    assert (audit + [row])[..|audit|] == audit;
  }

  lemma OtherStepsKeepConsumed(t: Tables, call: Call)
    requires !IsRedemption(t.access, call)
    ensures ConsumedTickets(Apply(t, call).access) == ConsumedTickets(t.access)
  {
    forall h ensures Consumed(t.access, h) <==> Consumed(Apply(t, call).access, h) {
      if h in t.access.tickets { StepKeepsTicket(t, call, h); } else { NewTicketUnspent(t, call, h); }
    }
  }

  lemma RedemptionCounts(a: Access, hash: string, kind: TicketKind, at: Time)
    requires Redeemable(a, hash, kind, at)
    ensures var after := ConsumeAccessTicket(a, hash, kind, at);
            && ConsumedRows(after.audit) == ConsumedRows(a.audit) + 1
            && |ConsumedTickets(after)| == |ConsumedTickets(a)| + 1
  {
    var after := ConsumeAccessTicket(a, hash, kind, at);
    AppendedRow(a.audit, AuditRow(Some(a.tickets[hash].userId), ConsumedAction(kind), a.tickets[hash].runId));
    assert ConsumedTickets(after) == ConsumedTickets(a) + {hash};
  }

  lemma StepCountsConsumed(t: Tables, call: Call)
    ensures ConsumedRows(Apply(t, call).access.audit) + |ConsumedTickets(t.access)|
            == ConsumedRows(t.access.audit) + |ConsumedTickets(Apply(t, call).access)| + if RecordsByHand(call) then 1 else 0
  {
    if IsRedemption(t.access, call) {
      RedemptionCounts(t.access, call.access.hash, call.access.kind, call.access.at);
    } else {
      OtherStepsKeepConsumed(t, call);
      if call.OnAccess? && call.access.CallRecordAudit? {
        AppendedRow(t.access.audit, call.access.row);
      } else {
        assert Apply(t, call).access.audit == t.access.audit;
      }
    }
  }

  /** Along any trace the audit rows of redemptions grow exactly with the set of
      spent tickets, apart from rows a caller records under that action itself. */
  lemma {:induction false} AuditCountsRedemptions(t: Tables, calls: seq<Call>)
    ensures ConsumedRows(ApplyAll(t, calls).access.audit) + |ConsumedTickets(t.access)|
            == ConsumedRows(t.access.audit) + |ConsumedTickets(ApplyAll(t, calls).access)| + RecordedByHand(calls)
    decreases calls
  {
    if calls != [] {
      StepCountsConsumed(t, calls[0]);
      AuditCountsRedemptions(Apply(t, calls[0]), calls[1..]);
    }
  }
}
