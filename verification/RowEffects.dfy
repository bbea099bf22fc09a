/** What single repository calls do to single rows, and which rules hold for the rows of
    organizations and members in every reachable state. */
module RowEffects {
  import opened Wrappers
  import opened Tables
  import opened LabLifecycle
  import opened TicketSafety

  // ----- Runs and tickets -----

  /** The owner's provisioning run takes the status its runtime reports; nobody else's run,
      and no run past provisioning, is touched. */
  lemma ReadinessReport(a: Access, userId: Id, id: Id, status: RunStatus)
    requires id in a.runs && (status == Ready || status == Failed)
    ensures var after := UpdateRunReadiness(a, userId, id, status).runs;
            after == if a.runs[id].userId == userId && a.runs[id].status == Provisioning
                     then a.runs[id := a.runs[id].(status := status)] else a.runs
  {}

  /** A run becomes ready exactly by such a report, in any state. */
  lemma BecomesReady(t: Tables, call: Call, id: Id)
    requires id in t.access.runs && t.access.runs[id].status != Ready
    requires id in Apply(t, call).access.runs && Apply(t, call).access.runs[id].status == Ready
    ensures t.access.runs[id].status == Provisioning
    ensures call == OnAccess(CallUpdateRunReadiness(t.access.runs[id].userId, id, Ready))
  {
    assert call.OnAccess?;
    match call.access
    case CallCreateRun(other, run) =>
    case CallUpdateRunReadiness(userId, other, status) =>
    case CallMarkRunExpired(other, at) =>
    case CallMarkRunStopped(other, at, actor, reason) =>
    case CallCreateAccessTicket(hash, runId, userId, kind, expiresAt) =>
    case CallConsumeAccessTicket(hash, kind, at) =>
    case CallRecordAudit(row) =>
  }

  /** A new ticket is of the asked kind, for the asked run and user, and unspent. */
  lemma TicketIssued(t: Tables, hash: string, runId: Id, userId: Id, kind: TicketKind, expiresAt: Time)
    requires hash !in t.access.tickets && runId in t.access.runs && userId in t.accounts.users
    ensures var after := CreateAccessTicket(t, hash, runId, userId, kind, expiresAt);
            && hash in after.tickets && after.tickets[hash].kind == kind && after.tickets[hash].runId == runId
            && after.tickets[hash].userId == userId && after.tickets[hash].expiresAt == expiresAt && after.tickets[hash].consumedAt == None
            && after.runs == t.access.runs && forall other :: other in t.access.tickets ==>
                 other in after.tickets && after.tickets[other] == t.access.tickets[other]
  {}

  /** Issued in time for a ready run, a ticket of either kind opens that run once: the
      second attempt changes nothing, and neither does one of the other kind. */
  lemma IssuedThenRedeemed(t: Tables, hash: string, runId: Id, userId: Id, kind: TicketKind, expiresAt: Time, at: Time, again: Time)
    requires hash !in t.access.tickets && runId in t.access.runs && userId in t.accounts.users
    requires t.access.runs[runId].status == Ready && at < expiresAt
    ensures var issued := CreateAccessTicket(t, hash, runId, userId, kind, expiresAt);
            var used := ConsumeAccessTicket(issued, hash, kind, at);
            var other := if kind == Desktop then OpenVpn else Desktop;
            && used.tickets[hash].consumedAt == Some(at)
            && used.audit == t.access.audit + [AuditRow(Some(userId), if kind == Desktop then "desktop_ticket.consumed" else "openvpn_ticket.consumed", runId)]
            && ConsumeAccessTicket(used, hash, kind, again) == used
            && ConsumeAccessTicket(issued, hash, other, at) == issued
            && (expiresAt <= again ==> ConsumeAccessTicket(issued, hash, kind, again) == issued)
  {}

  /** A ticket is spent exactly when it is unspent and of the asked kind, its time is not
      up, and its run is ready; then it is marked, one audit row is written, and nothing
      else changes. */
  lemma TicketSpent(a: Access, hash: string, kind: TicketKind, at: Time)
    requires hash in a.tickets
    ensures var ticket, after := a.tickets[hash], ConsumeAccessTicket(a, hash, kind, at);
            var opens := ticket.consumedAt == None && ticket.kind == kind && at < ticket.expiresAt
                         && ticket.runId in a.runs && a.runs[ticket.runId].status == Ready;
            && (!opens ==> after == a)
            && (opens ==>
                  && after.tickets == a.tickets[hash := ticket.(consumedAt := Some(at))] && after.runs == a.runs
                  && |after.audit| == |a.audit| + 1 && after.audit[..|a.audit|] == a.audit
                  && after.audit[|a.audit|].actor == Some(ticket.userId) && after.audit[|a.audit|].resourceId == ticket.runId)
  {}

  /** Along any sequence of calls a run stays in place with its owner and deadline, what is
      stopped or expired stays exactly as it is, and what was ready or failed is so still or
      is over. */
  lemma RunsInRows(t: Tables, calls: seq<Call>, id: Id)
    requires id in t.access.runs
    ensures var before, after := t.access.runs[id], ApplyAll(t, calls).access.runs;
            && id in after && after[id].userId == before.userId && after[id].expiresAt == before.expiresAt
            && (before.status == Stopped || before.status == Expired ==> after[id] == before)
            && (before.status == Ready ==> after[id] == before || after[id].status == Stopped || after[id].status == Expired)
            && (before.status == Failed ==> after[id] == before || after[id].status == Stopped || after[id].status == Expired)
  {
    RunsOnlyAdvance(t, calls, id);
  }

  // ----- Labs -----

  /** A validation of a lab without an administrator's mark decides its status; with the
      mark the lab stays quarantined. The evidence is recorded either way. */
  lemma ValidationDecides(c: Content, id: Id, passed: bool, evidence: seq<(string, bool)>)
    requires id in c.labs
    ensures var after := SaveValidation(c, id, passed, evidence);
            && after.labs == c.labs[id := after.labs[id]]
            && (c.labs[id].adminQuarantine == None ==> after.labs[id].status == if passed then Validated else Quarantined)
            && (c.labs[id].adminQuarantine != None ==> after.labs[id].status == Quarantined)
            && after.labs[id] == c.labs[id].(status := after.labs[id].status)
  {}

  /** Of several outcomes of one check the last one is kept, and other labs' evidence stays. */
  lemma {:induction false} EvidenceKept(rows: map<(Id, string), bool>, labId: Id, evidence: seq<(string, bool)>, key: (Id, string))
    ensures var after := UpsertEvidence(rows, labId, evidence);
            && ((key.0 != labId || forall i :: 0 <= i < |evidence| ==> evidence[i].0 != key.1) ==>
                  (key in after <==> key in rows) && (key in rows ==> after[key] == rows[key]))
            && (forall i :: (0 <= i < |evidence| && key == (labId, evidence[i].0) && forall j :: i < j < |evidence| ==> evidence[j].0 != key.1) ==>
                  key in after && after[key] == evidence[i].1)
    decreases |evidence|
  {
    if evidence != [] {
      var last := |evidence| - 1;
      EvidenceKept(rows, labId, evidence[..last], key);
    }
  }

  /** A patch reaches draft labs only: its keys get its values, the others keep theirs. */
  lemma PatchReachesDrafts(c: Content, id: Id, patch: map<string, string>, key: string)
    requires id in c.labs
    ensures var after := UpdateLabConfig(c, id, patch);
            && id in after.labs && after.labs[id] == c.labs[id].(config := after.labs[id].config)
            && (c.labs[id].status == Draft && key in patch ==> key in after.labs[id].config && after.labs[id].config[key] == patch[key])
            && (c.labs[id].status == Draft && key !in patch ==>
                  (key in after.labs[id].config <==> key in c.labs[id].config)
                  && (key in c.labs[id].config ==> after.labs[id].config[key] == c.labs[id].config[key]))
            && (c.labs[id].status != Draft ==> after == c)
  {}

  /** A new lab is a draft of its owner's organization, without a mark. */
  lemma LabCreated(t: Tables, id: Id, ownerId: Id, shape: LabShape, config: map<string, string>)
    requires id !in t.content.labs && ownerId in t.accounts.users
    ensures var after := CreateLab(t, id, ownerId, shape, config);
            var organization := if ownerId in t.accounts.memberships then Some(t.accounts.memberships[ownerId].organizationId) else None;
            after == t.content.(labs := t.content.labs[id := Lab(ownerId, organization, shape, Draft, config, None)])
  {}

  // ----- Organizations and members -----

  /** No two organizations share a slug or a join-code hash. */
  ghost predicate OrganizationsApart(a: Accounts) {
    forall o, p :: o in a.organizations && p in a.organizations && o != p ==>
      a.organizations[o].slug != a.organizations[p].slug && a.organizations[o].joinCodeHash != a.organizations[p].joinCodeHash
  }

  /** No two users share a handle, and every member's organization exists. */
  ghost predicate MembersSound(a: Accounts) {
    && (forall u, v :: u in a.users && v in a.users && u != v ==> a.users[u].handle != a.users[v].handle)
    && (forall u :: u in a.memberships ==> u in a.users && a.memberships[u].organizationId in a.organizations)
  }

  lemma NewUserKeepsApart(a: Accounts, id: Id, handle: string, role: PlatformRole, membership: Option<Membership>)
    requires OrganizationsApart(a) && MembersSound(a)
    ensures OrganizationsApart(AddUser(a, id, handle, role, membership)) && MembersSound(AddUser(a, id, handle, role, membership))
  {
    assert AddUser(a, id, handle, role, membership).organizations == a.organizations;
  }

  lemma NewOrganizationKeepsApart(a: Accounts, id: Id, organization: Organization)
    requires OrganizationsApart(a) && MembersSound(a)
    ensures OrganizationsApart(CreateOrganization(a, id, organization)) && MembersSound(CreateOrganization(a, id, organization))
  {}

  lemma RotationKeepsApart(a: Accounts, id: Id, hash: string)
    requires OrganizationsApart(a) && MembersSound(a)
    ensures OrganizationsApart(RotateJoinCode(a, id, hash)) && MembersSound(RotateJoinCode(a, id, hash))
  {}

  lemma AccountCallKeepsApart(a: Accounts, call: AccountCall)
    requires OrganizationsApart(a) && MembersSound(a)
    ensures OrganizationsApart(ApplyAccount(a, call)) && MembersSound(ApplyAccount(a, call))
  {
    match call
    case CallAddUser(id, handle, role, membership) => NewUserKeepsApart(a, id, handle, role, membership);
    case CallSetUserPlatformRole(id, role) =>
    case CallSetUserDisabled(id, disabled, at) =>
    case CallSetOrganizationMemberRole(organization, userId, admin) =>
    case CallRemoveOrganizationMember(organization, userId) =>
    case CallCreateOrganization(id, organization) => NewOrganizationKeepsApart(a, id, organization);
    case CallRotateJoinCode(id, hash) => RotationKeepsApart(a, id, hash);
  }

  /** In every reachable state slugs, join codes and handles tell their rows apart, and
      members belong to organizations that exist. */
  lemma {:induction false} AccountsSoundReachable(t: Tables, calls: seq<Call>)
    requires OrganizationsApart(t.accounts) && MembersSound(t.accounts)
    ensures OrganizationsApart(ApplyAll(t, calls).accounts) && MembersSound(ApplyAll(t, calls).accounts)
    decreases calls
  {
    if calls != [] {
      match calls[0] {
        case OnAccounts(call) => AccountCallKeepsApart(t.accounts, call);
        case _ => assert Apply(t, calls[0]).accounts == t.accounts;
      }
      AccountsSoundReachable(Apply(t, calls[0]), calls[1..]);
    }
  }

  /** An owner stays the owner: no sequence of calls changes that membership. */
  lemma {:induction false} OwnersStay(t: Tables, calls: seq<Call>, userId: Id)
    requires userId in t.accounts.users && userId in t.accounts.memberships && t.accounts.memberships[userId].role == Owner
    ensures var after := ApplyAll(t, calls).accounts;
            userId in after.users && userId in after.memberships && after.memberships[userId] == t.accounts.memberships[userId]
    decreases calls
  {
    if calls != [] {
      OwnerKept(t, calls[0], userId);
      OwnersStay(Apply(t, calls[0]), calls[1..], userId);
    }
  }

  lemma OwnerKept(t: Tables, call: Call, userId: Id)
    requires userId in t.accounts.users && userId in t.accounts.memberships && t.accounts.memberships[userId].role == Owner
    ensures var after := Apply(t, call).accounts;
            userId in after.users && userId in after.memberships && after.memberships[userId] == t.accounts.memberships[userId]
  {
    match call {
      case OnAccounts(account) =>
        match account {
          case CallAddUser(id, handle, role, membership) =>
          case CallSetUserPlatformRole(id, role) =>
          case CallSetUserDisabled(id, disabled, at) =>
          case CallSetOrganizationMemberRole(organization, other, admin) =>
          case CallRemoveOrganizationMember(organization, other) =>
          case CallCreateOrganization(id, organization) =>
          case CallRotateJoinCode(id, hash) =>
        }
      case _ => assert Apply(t, call).accounts == t.accounts;
    }
  }

  /** A member other than the owner gets the role that was asked for, in the asked
      organization only. */
  lemma MemberRoleAssigned(a: Accounts, organizationId: Id, userId: Id, admin: bool)
    requires userId in a.memberships
    ensures var after, before := SetOrganizationMemberRole(a, organizationId, userId, admin), a.memberships[userId];
            after == if before.organizationId == organizationId && before.role != Owner
                     then a.(memberships := a.memberships[userId := Membership(organizationId, if admin then OrgAdmin else PlainMember)])
                     else a
  {}

  /** A member other than the owner is removed from the asked organization. */
  lemma MemberRemoved(a: Accounts, organizationId: Id, userId: Id)
    requires userId in a.memberships
    ensures var after, before := RemoveOrganizationMember(a, organizationId, userId), a.memberships[userId];
            && (before.organizationId == organizationId && before.role != Owner ==>
                  userId !in after.memberships && after.users == a.users
                  && forall other :: other in a.memberships && other != userId ==>
                       other in after.memberships && after.memberships[other] == a.memberships[other])
            && (before.organizationId != organizationId || before.role == Owner ==> after == a)
  {}
}
