/** What administration requests keep over every run of the platform in which each
    request completes before the next one starts. */
module AdminSafety {
  import opened Wrappers
  import opened JsonText
  import opened Tables
  import opened Repository
  import opened RunReaper
  import opened Requests

  /** Repository calls made by everything else: registration, validation, readiness
      polling, tickets, sweeps, seasons. */
  predicate Quiet(call: Call) {
    match call
    case OnAccounts(CallSetUserPlatformRole(_, _)) => false
    case OnAccounts(CallSetUserDisabled(_, _, _)) => false
    case OnAccess(CallCreateRun(_, _)) => false
    case OnRecords(_, _) => false
    case _ => true
  }

  type QuietCall = call: Call | Quiet(call) witness OnAccess(CallRecordAudit(AuditRow(None, "", "")))

  datatype Event = Asked(request: Request, listed: seq<Id>) | Background(call: QuietCall)

  function After(sha256: Text -> string, t: Tables, e: Event): Tables {
    match e
    case Asked(r, listed) => Handle(sha256, t, r, listed).tables
    case Background(call) => Apply(t, call)
  }

  function AfterAll(sha256: Text -> string, t: Tables, events: seq<Event>): Tables
    decreases events
  {
    if events == [] then t else AfterAll(sha256, After(sha256, t, events[0]), events[1..])
  }

  // ----- The invariants -----

  ghost predicate SomeAdmin(t: Tables) {
    exists id :: EnabledAdmin(t.accounts, id)
  }

  /** No suspended or unknown user has a run that is still provisioning or ready. */
  ghost predicate OnlyEnabledUsersRun(t: Tables) {
    forall id :: id in t.access.runs && Active(t.access.runs[id].status) ==>
      EnabledUser(t.accounts, t.access.runs[id].userId)
  }

  ghost predicate Safe(t: Tables) { SomeAdmin(t) && OnlyEnabledUsersRun(t) }

  // ----- Frames -----

  /** Nobody loses an account, a role or access, and active runs only go away. */
  ghost predicate Harmless(t: Tables, u: Tables) {
    && (forall id :: id in t.accounts.users ==> id in u.accounts.users && u.accounts.users[id] == t.accounts.users[id])
    && (forall id :: id in u.access.runs && Active(u.access.runs[id].status) ==>
          && id in t.access.runs && Active(t.access.runs[id].status)
          && t.access.runs[id].userId == u.access.runs[id].userId)
  }

  lemma HarmlessKeepsSafe(t: Tables, u: Tables)
    requires Safe(t) && Harmless(t, u)
    ensures Safe(u)
  {
    var admin :| EnabledAdmin(t.accounts, admin);
    assert EnabledAdmin(u.accounts, admin);
    forall id | id in u.access.runs && Active(u.access.runs[id].status)
      ensures EnabledUser(u.accounts, u.access.runs[id].userId)
    {
      assert EnabledUser(t.accounts, t.access.runs[id].userId);
    }
  }

  lemma AccountCallHarmless(t: Tables, call: AccountCall)
    requires Quiet(OnAccounts(call))
    ensures Harmless(t, t.(accounts := ApplyAccount(t.accounts, call)))
  {
    match call
    case CallAddUser(id, handle, role, membership) =>
    case CallSetOrganizationMemberRole(organization, userId, admin) =>
    case CallRemoveOrganizationMember(organization, userId) =>
    case CallCreateOrganization(id, organization) =>
    case CallRotateJoinCode(id, hash) =>
    case _ =>
  }

  lemma AccessCallHarmless(t: Tables, call: AccessCall)
    requires Quiet(OnAccess(call))
    ensures Harmless(t, t.(access := ApplyAccess(t, call)))
  {
    match call
    case CallUpdateRunReadiness(userId, id, status) =>
      if UpdateRunReadiness(t.access, userId, id, status) != t.access { assert Active(t.access.runs[id].status); }
    case CallMarkRunExpired(id, at) =>
    case CallMarkRunStopped(id, at, actor, reason) =>
    case CallCreateAccessTicket(hash, runId, userId, kind, expiresAt) =>
    case CallConsumeAccessTicket(hash, kind, at) =>
    case CallRecordAudit(row) =>
    case _ =>
  }

  lemma BackgroundHarmless(t: Tables, call: QuietCall)
    ensures Harmless(t, Apply(t, call))
  {
    match call
    case OnAccounts(account) => AccountCallHarmless(t, account);
    case OnAccess(access) => AccessCallHarmless(t, access);
    case _ =>
  }

  // ----- The requests that are not harmless -----

  lemma RoleKeepsSafe(t: Tables, actor: Id, id: Id, role: PlatformRole)
    requires Safe(t) && EnabledAdmin(t.accounts, actor) && id != actor && id in t.accounts.users
    ensures Safe(t.(accounts := SetUserPlatformRole(t.accounts, id, role)))
  {
    var a := SetUserPlatformRole(t.accounts, id, role);
    assert EnabledAdmin(a, actor);
    forall other | EnabledUser(t.accounts, other) ensures EnabledUser(a, other) {}
  }

  lemma ReinstatementKeepsSafe(t: Tables, actor: Id, id: Id, at: Time)
    requires Safe(t) && EnabledAdmin(t.accounts, actor) && id != actor && id in t.accounts.users
    ensures Safe(t.(accounts := SetUserDisabled(t.accounts, id, false, at)))
  {
    var a := SetUserDisabled(t.accounts, id, false, at);
    assert EnabledAdmin(a, actor);
    forall other | EnabledUser(t.accounts, other) ensures EnabledUser(a, other) {}
  }

  /** The termination loop is what makes a suspension safe. */
  lemma SuspensionKeepsSafe(t: Tables, actor: Id, id: Id, at: Time)
    requires Safe(t) && EnabledAdmin(t.accounts, actor) && id != actor && id in t.accounts.users
    ensures Safe(t.(accounts := SetUserDisabled(t.accounts, id, true, at),
                    access := StopRunsOf(t.access, id, at, actor, SUSPENDED_REASON)))
  {
    var a := SetUserDisabled(t.accounts, id, true, at);
    var b := StopRunsOf(t.access, id, at, actor, SUSPENDED_REASON);
    assert EnabledAdmin(a, actor);
    StopRunsOfEnds(t.access, id, at, actor, SUSPENDED_REASON);
    forall run | run in b.runs && Active(b.runs[run].status) ensures EnabledUser(a, b.runs[run].userId) {
      var owner := b.runs[run].userId;
      assert run in ActiveRunsOf(b.runs, owner);
      assert run in ActiveRunsOf(t.access.runs, owner);
    }
  }

  lemma DeployKeepsSafe(t: Tables, actor: Id, id: Id, run: Run)
    requires Safe(t) && EnabledUser(t.accounts, actor) && run.userId == actor && CanCreateRun(t, id, run)
    ensures Safe(t.(access := CreateRun(t, id, run)))
  {
    var b := CreateRun(t, id, run);
    forall other | other in b.runs && Active(b.runs[other].status) ensures EnabledUser(t.accounts, b.runs[other].userId) {
      if other != id { assert b.runs[other] == t.access.runs[other]; }
    }
  }

  lemma TerminateHarmless(t: Tables, id: Id, at: Time, actor: Id, reason: string)
    ensures Harmless(t, t.(access := MarkRunStopped(t.access, id, at, actor, reason)))
  {
    AccessCallHarmless(t, CallMarkRunStopped(id, at, actor, reason));
  }

  lemma AdmittedActor(t: Tables, r: Request)
    requires Admission(t, r).None?
    ensures EnabledUser(t.accounts, r.actor)
    ensures Administrative(r.operation) ==> r.claimsAdmin && EnabledAdmin(t.accounts, r.actor)
    ensures r.operation.OpPlatformRole? || r.operation.OpSuspension? ==> r.operation.resourceId != r.actor
  {
    assert AccountRefusal(t, r).None?;
    assert BodyRefusal(t, r).None?;
  }

  lemma OthersHarmless(t: Tables, r: Request, listed: seq<Id>)
    requires Admission(t, r).None? && Perform(t, r, listed).Ok?
    requires !r.operation.OpPlatformRole? && !r.operation.OpSuspension? && !r.operation.OpTerminate? && !r.operation.OpDeploy?
    ensures Harmless(t, Perform(t, r, listed).value.tables)
  {
    assert Perform(t, r, listed).value.tables.access == t.access;
  }

  lemma PerformKeepsSafe(t: Tables, r: Request, listed: seq<Id>)
    requires Safe(t) && Admission(t, r).None?
    ensures Perform(t, r, listed).Ok? ==> Safe(Perform(t, r, listed).value.tables)
  {
    AdmittedActor(t, r);
    var actor, w := r.actor, r.world;
    if Perform(t, r, listed).Ok? {
      match r.operation
      case OpPlatformRole(id) => RoleKeepsSafe(t, actor, id, RoleOf(r.body).value);
      case OpSuspension(id) =>
        SuspensionKeepsSafe(t, actor, id, w.now);
        ReinstatementKeepsSafe(t, actor, id, w.now);
      case OpTerminate(id) =>
        TerminateHarmless(t, id, w.now, actor, ADMIN_REASON);
        HarmlessKeepsSafe(t, PerformTerminate(t, actor, id, w).value.tables);
      case OpDeploy(labId) =>
        DeployKeepsSafe(t, actor, w.freshId, NewRun(actor, labId, w.runtime.value, w.now));
      case _ =>
        OthersHarmless(t, r, listed);
        HarmlessKeepsSafe(t, Perform(t, r, listed).value.tables);
    }
  }

  lemma HandleKeepsSafe(sha256: Text -> string, t: Tables, r: Request, listed: seq<Id>)
    requires Safe(t)
    ensures Safe(Handle(sha256, t, r, listed).tables)
  {
    var after := Handle(sha256, t, r, listed).tables;
    if after != t {
      PerformKeepsSafe(t, r, listed);
      var done := Perform(t, r, listed).value;
      assert Harmless(done.tables, after);
      HarmlessKeepsSafe(done.tables, after);
    }
  }

  /** From a state with an enabled administrator, no history of requests and
      background work locks every administrator out, and none leaves a suspended
      user with a live environment. */
  lemma {:induction false} SafeReachable(sha256: Text -> string, t: Tables, events: seq<Event>)
    requires Safe(t)
    ensures Safe(AfterAll(sha256, t, events))
    decreases events
  {
    if events != [] {
      match events[0] {
        case Asked(r, listed) => HandleKeepsSafe(sha256, t, r, listed);
        case Background(call) =>
          BackgroundHarmless(t, call);
          HarmlessKeepsSafe(t, Apply(t, call));
      }
      SafeReachable(sha256, After(sha256, t, events[0]), events[1..]);
    }
  }

  /** Without the self-modification guard the only administrator could lock the console. */
  lemma SelfDemotionWouldLockOut()
    ensures exists a: Accounts, id :: EnabledAdmin(a, id) && !SomeAdmin(EMPTY.(accounts := SetUserPlatformRole(a, id, PlainUser)))
  {
    var a := EMPTY.accounts.(users := map["root" := User("root", PlatformAdmin, None)]);
    assert EnabledAdmin(a, "root");
    var b := SetUserPlatformRole(a, "root", PlainUser);
    assert forall id :: !EnabledAdmin(b, id);
    assert !SomeAdmin(EMPTY.(accounts := b));
  }

  // ----- Who can cause what -----

  /** A role or a suspension changes only when an enabled administrator asks for it,
      and never on the administrator's own account. */
  lemma OnlyAnotherAdminChangesAccess(sha256: Text -> string, t: Tables, e: Event, id: Id)
    requires id in t.accounts.users
    requires id !in After(sha256, t, e).accounts.users || After(sha256, t, e).accounts.users[id] != t.accounts.users[id]
    ensures e.Asked? && e.request.operation in {OpPlatformRole(id), OpSuspension(id)}
    ensures EnabledAdmin(t.accounts, e.request.actor) && e.request.actor != id
  {
    match e
    case Background(call) => BackgroundHarmless(t, call);
    case Asked(r, listed) =>
      assert Admission(t, r).None? && Perform(t, r, listed).Ok?;
      assert Perform(t, r, listed).value.tables.accounts.users != t.accounts.users;
      AdmittedActor(t, r);
      PerformChangesUsers(t, r, listed, id);
  }

  lemma PerformedTables(sha256: Text -> string, t: Tables, r: Request, listed: seq<Id>)
    requires Handle(sha256, t, r, listed).outcome.Performed?
    ensures Admission(t, r).None? && Perform(t, r, listed).Ok?
    ensures Handle(sha256, t, r, listed).tables.accounts == Perform(t, r, listed).value.tables.accounts
    ensures Handle(sha256, t, r, listed).tables.access.runs == Perform(t, r, listed).value.tables.access.runs
  {}

  /** A suspension that is carried out locks the account and ends its environments. */
  lemma SuspensionTakesEffect(sha256: Text -> string, t: Tables, r: Request, listed: seq<Id>, id: Id)
    requires r.operation == OpSuspension(id) && SuspensionOf(r.body) == Some(true)
    requires Handle(sha256, t, r, listed).outcome.Performed?
    ensures var after := Handle(sha256, t, r, listed).tables;
            && id in t.accounts.users && id in after.accounts.users
            && after.accounts.users[id].disabledAt == Some(r.world.now)
            && after.accounts.users[id].role == t.accounts.users[id].role
            && ActiveRunsOf(after.access.runs, id) == {}
  {
    PerformedTables(sha256, t, r, listed);
    StopRunsOfEnds(t.access, id, r.world.now, r.actor, SUSPENDED_REASON);
    assert Perform(t, r, listed) == PerformSuspension(t, r.actor, id, true, r.world.now, listed);
  }

  lemma RoleTakesEffect(sha256: Text -> string, t: Tables, r: Request, listed: seq<Id>, id: Id)
    requires r.operation == OpPlatformRole(id) && Handle(sha256, t, r, listed).outcome.Performed?
    ensures var after := Handle(sha256, t, r, listed).tables;
            && id in t.accounts.users && Some(after.accounts.users[id].role) == RoleOf(r.body)
            && after.accounts.users[id].disabledAt == t.accounts.users[id].disabledAt
            && after.access.runs == t.access.runs
  {
    PerformedTables(sha256, t, r, listed);
    assert Perform(t, r, listed) == PerformRole(t, id, RoleOf(r.body).value);
  }

  lemma TerminateEnds(t: Tables, actor: Id, id: Id, w: World)
    requires PerformTerminate(t, actor, id, w).Ok?
    ensures var after := PerformTerminate(t, actor, id, w).value.tables.access.runs;
            && id in t.access.runs && id in after && Terminal(after[id].status)
            && (!Terminal(t.access.runs[id].status) ==> after[id].status == Stopped && after[id].browserUrl == None && after[id].openVpnProfile == None)
            && after == t.access.runs[id := after[id]]
  {}

  /** A termination leaves the run ended, and ends no other. */
  lemma TerminationTakesEffect(sha256: Text -> string, t: Tables, r: Request, listed: seq<Id>, id: Id)
    requires r.operation == OpTerminate(id) && Handle(sha256, t, r, listed).outcome.Performed?
    ensures var after := Handle(sha256, t, r, listed).tables.access.runs;
            && id in t.access.runs && id in after && Terminal(after[id].status)
            && (!Terminal(t.access.runs[id].status) ==> after[id].status == Stopped && after[id].browserUrl == None && after[id].openVpnProfile == None)
            && after == t.access.runs[id := after[id]]
  {
    PerformedTables(sha256, t, r, listed);
    assert Perform(t, r, listed) == PerformTerminate(t, r.actor, id, r.world);
    TerminateEnds(t, r.actor, id, r.world);
  }

  /** From then on the account gets nothing done, whatever it asks for. */
  lemma SuspendedAccountIsRefused(sha256: Text -> string, t: Tables, r: Request, listed: seq<Id>)
    requires r.actor in t.accounts.users && t.accounts.users[r.actor].disabledAt.Some?
    ensures Handle(sha256, t, r, listed) == Response(t, Rejected(AccountSuspended))
  {
    assert AccountRefusal(t, r) == Some(AccountSuspended);
  }

  /** No request in the history addresses the role or the suspension of this account. */
  ghost predicate LeavesAccount(events: seq<Event>, id: Id) {
    forall i :: 0 <= i < |events| && events[i].Asked? ==> events[i].request.operation !in {OpPlatformRole(id), OpSuspension(id)}
  }

  lemma {:induction false} AccountKept(sha256: Text -> string, t: Tables, events: seq<Event>, id: Id)
    requires id in t.accounts.users && LeavesAccount(events, id)
    ensures var u := AfterAll(sha256, t, events); id in u.accounts.users && u.accounts.users[id] == t.accounts.users[id]
    decreases events
  {
    if events != [] {
      var next := After(sha256, t, events[0]);
      if id !in next.accounts.users || next.accounts.users[id] != t.accounts.users[id] {
        OnlyAnotherAdminChangesAccess(sha256, t, events[0], id);
      }
      AccountKept(sha256, next, events[1..], id);
    }
  }

  /** A suspension lasts: whatever happens until an administrator addresses the account
      again, it has no live environment and every request of its own is refused. */
  lemma SuspensionLasts(sha256: Text -> string, t: Tables, r: Request, listed: seq<Id>, id: Id, between: seq<Event>,
                        later: Request, again: seq<Id>)
    requires Safe(t) && r.operation == OpSuspension(id) && SuspensionOf(r.body) == Some(true)
    requires Handle(sha256, t, r, listed).outcome.Performed?
    requires LeavesAccount(between, id) && later.actor == id
    ensures var u := AfterAll(sha256, Handle(sha256, t, r, listed).tables, between);
            && Handle(sha256, u, later, again) == Response(u, Rejected(AccountSuspended))
            && ActiveRunsOf(u.access.runs, id) == {}
  {
    var after := Handle(sha256, t, r, listed).tables;
    var u := AfterAll(sha256, after, between);
    SuspensionTakesEffect(sha256, t, r, listed, id);
    HandleKeepsSafe(sha256, t, r, listed);
    AccountKept(sha256, after, between, id);
    SafeReachable(sha256, after, between);
    SuspendedAccountIsRefused(sha256, u, later, again);
    forall run | run in u.access.runs && Active(u.access.runs[run].status) ensures u.access.runs[run].userId != id {
      assert EnabledUser(u.accounts, u.access.runs[run].userId);
    }
  }

  lemma RoleKept(sha256: Text -> string, t: Tables, r: Request, listed: seq<Id>, id: Id, between: seq<Event>)
    requires r.operation == OpPlatformRole(id) && Handle(sha256, t, r, listed).outcome.Performed? && LeavesAccount(between, id)
    ensures var u := AfterAll(sha256, Handle(sha256, t, r, listed).tables, between);
            id in u.accounts.users && Some(u.accounts.users[id].role) == RoleOf(r.body)
  {
    RoleTakesEffect(sha256, t, r, listed, id);
    AccountKept(sha256, Handle(sha256, t, r, listed).tables, between, id);
  }

  /** A role change lasts just as long, and an account demoted by it gets no
      administrative request through. */
  lemma RoleLasts(sha256: Text -> string, t: Tables, r: Request, listed: seq<Id>, id: Id, between: seq<Event>,
                  later: Request, again: seq<Id>)
    requires r.operation == OpPlatformRole(id) && Handle(sha256, t, r, listed).outcome.Performed?
    requires LeavesAccount(between, id) && later.actor == id && Administrative(later.operation)
    ensures var u := AfterAll(sha256, Handle(sha256, t, r, listed).tables, between);
            && id in u.accounts.users && Some(u.accounts.users[id].role) == RoleOf(r.body)
            && (RoleOf(r.body) == Some(PlainUser) ==>
                  Handle(sha256, u, later, again).outcome.Rejected? && Handle(sha256, u, later, again).tables == u)
  {
    RoleKept(sha256, t, r, listed, id, between);
    var u := AfterAll(sha256, Handle(sha256, t, r, listed).tables, between);
    if RoleOf(r.body) == Some(PlainUser) { PlainUserIsRefused(sha256, u, later, again); }
  }

  lemma PlainUserIsRefused(sha256: Text -> string, t: Tables, r: Request, listed: seq<Id>)
    requires r.actor in t.accounts.users && t.accounts.users[r.actor].role == PlainUser && Administrative(r.operation)
    ensures Handle(sha256, t, r, listed).outcome.Rejected? && Handle(sha256, t, r, listed).tables == t
  {
    assert AccountRefusal(t, r).Some?;
  }

  lemma PerformChangesUsers(t: Tables, r: Request, listed: seq<Id>, id: Id)
    requires Admission(t, r).None? && Perform(t, r, listed).Ok?
    requires id in t.accounts.users
    ensures r.operation !in {OpPlatformRole(id), OpSuspension(id)} ==>
              && id in Perform(t, r, listed).value.tables.accounts.users
              && Perform(t, r, listed).value.tables.accounts.users[id] == t.accounts.users[id]
  {}

  /** A run comes into being only for an enabled user who can see its lab, and only
      while that lab is validated. */
  lemma RunsStartFromValidatedLabs(sha256: Text -> string, t: Tables, e: Event, id: Id)
    requires id !in t.access.runs && id in After(sha256, t, e).access.runs
    ensures var run := After(sha256, t, e).access.runs[id];
            && e == Asked(e.request, e.listed) && e.request.operation == OpDeploy(run.labId) && e.request.actor == run.userId
            && EnabledUser(t.accounts, run.userId) && CanSeeLab(t, run.userId, run.labId)
            && t.content.labs[run.labId].status == Validated
            && AccessRefusal(t.content.labs[run.labId].shape, e.request.body).None?
  {
    match e
    case Background(call) =>
      match call {
        case OnAccess(access) => AccessCallAddsNoRun(t, access, id);
        case _ =>
      }
    case Asked(r, listed) =>
      assert Admission(t, r).None? && Perform(t, r, listed).Ok?;
      AdmittedActor(t, r);
      PerformAddsRuns(t, r, listed, id);
  }

  lemma AccessCallAddsNoRun(t: Tables, call: AccessCall, id: Id)
    requires Quiet(OnAccess(call)) && id !in t.access.runs
    ensures id !in ApplyAccess(t, call).runs
  {}

  lemma PerformAddsRuns(t: Tables, r: Request, listed: seq<Id>, id: Id)
    requires Admission(t, r).None? && Perform(t, r, listed).Ok? && id !in t.access.runs
    ensures var after := Perform(t, r, listed).value.tables.access.runs;
            id in after ==> r.operation == OpDeploy(after[id].labId) && after[id].userId == r.actor
  {
    if r.operation.OpDeploy? { assert Perform(t, r, listed) == PerformDeploy(t, r.actor, r.operation.resourceId, r.body, r.world); }
  }
}
