/** The platform's tables, keyed by primary key, and what each repository call
    does to them. A call is synchronous, so each one is a single atomic step;
    a call that throws or finds nothing to change leaves the tables as they were.
    Every function returns the group of tables that its call may write. */
module Tables {
  import opened Wrappers
  import Questions

  type Id = string
  /** Milliseconds since the epoch. */
  type Time = int

  datatype PlatformRole = PlainUser | PlatformAdmin
  datatype User = User(handle: string, role: PlatformRole, disabledAt: Option<Time>)

  datatype Organization = Organization(name: string, slug: string, joinCodeHash: string)

  datatype MemberRole = Owner | OrgAdmin | PlainMember
  datatype Membership = Membership(organizationId: Id, role: MemberRole)

  datatype LabStatus = Draft | Validated | Quarantined
  /** A blue-team lab has telemetry; a lab enables one or both ways in; its questions are
      the hidden ones, with their keys. */
  datatype LabShape = LabShape(blue: bool, desktop: bool, openVpn: bool, questions: seq<Questions.Question>)
  datatype Lab = Lab(
    ownerId: Id, organizationId: Option<Id>, shape: LabShape, status: LabStatus, config: map<string, string>,
    adminQuarantine: Option<Quarantine>)
  /** The reason is kept as UTF-16 code units. */
  datatype Quarantine = Quarantine(at: Time, actor: Id, reason: seq<int>)

  datatype RunStatus = Provisioning | Ready | Failed | Stopped | Expired
  datatype Run = Run(
    labId: Id, userId: Id, status: RunStatus, browserUrl: Option<string>, openVpnProfile: Option<string>,
    expiresAt: Time, createdAt: Time, termination: Option<Termination>)
  datatype Termination = Termination(actor: Option<Id>, at: Time, reason: string)

  datatype TicketKind = Desktop | OpenVpn
  datatype Ticket = Ticket(runId: Id, userId: Id, kind: TicketKind, expiresAt: Time, consumedAt: Option<Time>)

  datatype ChallengeResult = ChallengeResult(
    id: Id, labId: Id, userId: Id, runId: Id, score: int, maxScore: int, hintsUsed: int, completedAt: Time)
  datatype ScoreEvent = ScoreEvent(
    resultId: Id, userId: Id, organizationId: Option<Id>, pointsDelta: int, maxPoints: int, occurredAt: Time)

  datatype Season = Season(name: string, slug: string, startsAt: Time, endsAt: Time)

  datatype AuditRow = AuditRow(actor: Option<Id>, action: string, resourceId: Id)

  /** The operations that take an Idempotency-Key, each scoped to its resource. */
  datatype Operation =
    | OpCreateOrganization
    | OpRotateJoinCode(resourceId: Id)
    | OpPlatformRole(resourceId: Id)
    | OpSuspension(resourceId: Id)
    | OpQuarantine(resourceId: Id)
    | OpRelease(resourceId: Id)
    | OpDeploy(resourceId: Id)
    | OpTerminate(resourceId: Id)
    | OpSubmit(resourceId: Id)

  datatype Payload =
    | OrganizationPayload(organization: Organization, joinCode: Option<string>)
    | UserPayload(user: User, terminatedRuns: seq<Id>)
    | LabPayload(lab: Lab)
    | RunPayload(run: Run)
    | ResultPayload(result: ChallengeResult)

  datatype RecordKey = RecordKey(userId: Id, operation: Operation, key: string)
  datatype IdempotencyRecord = IdempotencyRecord(requestHash: string, resourceId: Id, response: Payload)

  datatype Accounts = Accounts(
    users: map<Id, User>, organizations: map<Id, Organization>, memberships: map<Id, Membership>)
  datatype Content = Content(labs: map<Id, Lab>, evidence: map<(Id, string), bool>)
  datatype Access = Access(runs: map<Id, Run>, tickets: map<string, Ticket>, audit: seq<AuditRow>)
  datatype Scores = Scores(results: seq<ChallengeResult>, events: seq<ScoreEvent>)

  datatype Tables = Tables(
    accounts: Accounts,
    content: Content,
    access: Access,
    scores: Scores,
    seasons: map<Id, Season>,
    records: map<RecordKey, IdempotencyRecord>)

  const EMPTY := Tables(Accounts(map[], map[], map[]), Content(map[], map[]), Access(map[], map[], []),
                        Scores([], []), map[], map[])

  // ----- Accounts -----

  /** A new account starts enabled; `register` makes a plain user, `onboardIdentity`
      takes the role from the verified token. */
  function AddUser(a: Accounts, id: Id, handle: string, role: PlatformRole, membership: Option<Membership>): Accounts {
    if id in a.users || exists u :: u in a.users && a.users[u].handle == handle then a
    else if membership.Some? && membership.value.organizationId !in a.organizations then a
    else a.(users := a.users[id := User(handle, role, None)],
            memberships := if membership.Some? then a.memberships[id := membership.value] else a.memberships)
  }

  function SetUserPlatformRole(a: Accounts, id: Id, role: PlatformRole): Accounts {
    if id !in a.users then a else a.(users := a.users[id := a.users[id].(role := role)])
  }

  function SetUserDisabled(a: Accounts, id: Id, disabled: bool, at: Time): Accounts {
    if id !in a.users then a
    else a.(users := a.users[id := a.users[id].(disabledAt := if disabled then Some(at) else None)])
  }

  predicate SlugOrCodeTaken(a: Accounts, organization: Organization) {
    exists o :: o in a.organizations && (a.organizations[o].slug == organization.slug
                                         || a.organizations[o].joinCodeHash == organization.joinCodeHash)
  }

  function CreateOrganization(a: Accounts, id: Id, organization: Organization): Accounts {
    if id in a.organizations || SlugOrCodeTaken(a, organization) then a
    else a.(organizations := a.organizations[id := organization])
  }

  /** A hash already in use violates the UNIQUE constraint and changes nothing. */
  predicate CanRotate(a: Accounts, id: Id, hash: string) {
    id in a.organizations
    && forall o :: o in a.organizations && o != id ==> a.organizations[o].joinCodeHash != hash
  }

  function RotateJoinCode(a: Accounts, id: Id, hash: string): Accounts {
    if CanRotate(a, id, hash) then a.(organizations := a.organizations[id := a.organizations[id].(joinCodeHash := hash)])
    else a
  }

  predicate ManageableMember(a: Accounts, organizationId: Id, userId: Id) {
    userId in a.memberships && a.memberships[userId].organizationId == organizationId
    && a.memberships[userId].role != Owner
  }

  /** Only the two non-owner roles can be assigned. */
  function SetOrganizationMemberRole(a: Accounts, organizationId: Id, userId: Id, admin: bool): Accounts {
    if ManageableMember(a, organizationId, userId) then
      a.(memberships := a.memberships[userId := Membership(organizationId, if admin then OrgAdmin else PlainMember)])
    else a
  }

  function RemoveOrganizationMember(a: Accounts, organizationId: Id, userId: Id): Accounts {
    if ManageableMember(a, organizationId, userId) then a.(memberships := a.memberships - {userId}) else a
  }

  function OrganizationOf(a: Accounts, userId: Id): Option<Id> {
    if userId in a.memberships then Some(a.memberships[userId].organizationId) else None
  }

  // ----- Labs -----

  /** `getLab`: a lab is seen by its owner and by the members of its organization. */
  predicate CanSeeLab(t: Tables, userId: Id, labId: Id) {
    && labId in t.content.labs
    && var lab := t.content.labs[labId];
       lab.ownerId == userId
       || (lab.organizationId.Some? && lab.organizationId == OrganizationOf(t.accounts, userId))
  }

  function CreateLab(t: Tables, id: Id, ownerId: Id, shape: LabShape, config: map<string, string>): Content {
    if id in t.content.labs || ownerId !in t.accounts.users then t.content
    else t.content.(labs := t.content.labs[id := Lab(ownerId, OrganizationOf(t.accounts, ownerId), shape, Draft, config, None)])
  }

  function UpdateLabConfig(c: Content, id: Id, patch: map<string, string>): Content {
    if id !in c.labs || c.labs[id].status != Draft then c
    else c.(labs := c.labs[id := c.labs[id].(config := c.labs[id].config + patch)])
  }

  function UpsertEvidence(rows: map<(Id, string), bool>, labId: Id, evidence: seq<(string, bool)>)
    : map<(Id, string), bool>
    decreases |evidence|
  {
    if evidence == [] then rows
    else UpsertEvidence(rows, labId, evidence[..|evidence| - 1])
           [(labId, evidence[|evidence| - 1].0) := evidence[|evidence| - 1].1]
  }

  /** An administrative quarantine overrides whatever the validator decided. */
  function SaveValidation(c: Content, id: Id, passed: bool, evidence: seq<(string, bool)>): Content {
    if id !in c.labs then c
    else
      var status := if c.labs[id].adminQuarantine.Some? then Quarantined
                    else if passed then Validated else Quarantined;
      Content(c.labs[id := c.labs[id].(status := status)], UpsertEvidence(c.evidence, id, evidence))
  }

  function QuarantineLab(c: Content, id: Id, quarantine: Quarantine): Content {
    if id !in c.labs then c
    else c.(labs := c.labs[id := c.labs[id].(status := Quarantined, adminQuarantine := Some(quarantine))])
  }

  function ReleaseLabQuarantine(c: Content, id: Id): Content {
    if id !in c.labs || c.labs[id].status != Quarantined then c
    else c.(labs := c.labs[id := c.labs[id].(status := Draft, adminQuarantine := None)])
  }

  // ----- Runs -----

  predicate Terminal(status: RunStatus) { status == Stopped || status == Expired }

  predicate Active(status: RunStatus) { status == Provisioning || status == Ready }

  /** A run arrives from the runtime adapter as provisioning, ready or failed. */
  predicate CanCreateRun(t: Tables, id: Id, run: Run) {
    id !in t.access.runs && run.labId in t.content.labs && run.userId in t.accounts.users && !Terminal(run.status)
  }

  function CreateRun(t: Tables, id: Id, run: Run): Access {
    if CanCreateRun(t, id, run) then t.access.(runs := t.access.runs[id := run.(termination := None)]) else t.access
  }

  function UpdateRunReadiness(a: Access, userId: Id, id: Id, status: RunStatus): Access {
    if status == Provisioning || Terminal(status) || id !in a.runs || a.runs[id].userId != userId
       || a.runs[id].status != Provisioning then a
    else a.(runs := a.runs[id := a.runs[id].(status := status)])
  }

  function Terminated(run: Run, status: RunStatus, termination: Termination): Run {
    run.(status := status, browserUrl := None, openVpnProfile := None, termination := Some(termination))
  }

  const TTL_EXPIRED := "ttl_expired"

  function MarkRunExpired(a: Access, id: Id, at: Time): Access {
    if id !in a.runs || Terminal(a.runs[id].status) then a
    else a.(runs := a.runs[id := Terminated(a.runs[id], Expired, Termination(None, at, TTL_EXPIRED))])
  }

  function MarkRunStopped(a: Access, id: Id, at: Time, actor: Id, reason: string): Access {
    if id !in a.runs || Terminal(a.runs[id].status) then a
    else a.(runs := a.runs[id := Terminated(a.runs[id], Stopped, Termination(Some(actor), at, reason))])
  }

  // ----- Access tickets -----

  function CreateAccessTicket(t: Tables, hash: string, runId: Id, userId: Id, kind: TicketKind, expiresAt: Time): Access {
    if hash in t.access.tickets || runId !in t.access.runs || userId !in t.accounts.users then t.access
    else t.access.(tickets := t.access.tickets[hash := Ticket(runId, userId, kind, expiresAt, None)])
  }

  function ConsumedAction(kind: TicketKind): string {
    match kind
    case Desktop => "desktop_ticket.consumed"
    case OpenVpn => "openvpn_ticket.consumed"
  }

  /** The WHERE clause of the redeeming query. */
  predicate Redeemable(a: Access, hash: string, kind: TicketKind, at: Time) {
    && hash in a.tickets
    && a.tickets[hash].kind == kind
    && a.tickets[hash].consumedAt == None
    && at < a.tickets[hash].expiresAt
    && a.tickets[hash].runId in a.runs
    && a.runs[a.tickets[hash].runId].status == Ready
  }

  function ConsumeAccessTicket(a: Access, hash: string, kind: TicketKind, at: Time): Access {
    if !Redeemable(a, hash, kind, at) then a
    else
      var ticket := a.tickets[hash];
      Access(a.runs,
             a.tickets[hash := ticket.(consumedAt := Some(at))],
             a.audit + [AuditRow(Some(ticket.userId), ConsumedAction(kind), ticket.runId)])
  }

  function RecordAudit(a: Access, row: AuditRow): Access {
    a.(audit := a.audit + [row])
  }

  // ----- Results and the score ledger -----

  predicate HasResultForRun(s: Scores, runId: Id) {
    exists i :: 0 <= i < |s.results| && s.results[i].runId == runId
  }

  /** CHECK, PRIMARY KEY and REFERENCES constraints of the two inserts. */
  predicate Storable(t: Tables, r: ChallengeResult) {
    && (forall i :: 0 <= i < |t.scores.results| ==> t.scores.results[i].id != r.id)
    && r.labId in t.content.labs && r.userId in t.accounts.users && r.runId in t.access.runs
    && 0 <= r.score <= r.maxScore && r.maxScore > 0
    && r.hintsUsed >= 0
  }

  function ScoreEventFor(a: Accounts, r: ChallengeResult): ScoreEvent {
    ScoreEvent(r.id, r.userId, OrganizationOf(a, r.userId), r.score, r.maxScore, r.completedAt)
  }

  function SaveChallengeResult(t: Tables, r: ChallengeResult): Scores {
    if HasResultForRun(t.scores, r.runId) || !Storable(t, r) then t.scores
    else Scores(t.scores.results + [r], t.scores.events + [ScoreEventFor(t.accounts, r)])
  }

  // ----- Seasons -----

  predicate Overlaps(a: Season, b: Season) {
    a.startsAt < b.endsAt && a.endsAt > b.startsAt
  }

  predicate SeasonOverlaps(seasons: map<Id, Season>, season: Season) {
    exists s :: s in seasons && Overlaps(seasons[s], season)
  }

  predicate SeasonExists(seasons: map<Id, Season>, id: Id, season: Season) {
    id in seasons || exists s :: s in seasons && seasons[s].slug == season.slug
  }

  function CreateSeason(seasons: map<Id, Season>, id: Id, season: Season): map<Id, Season> {
    if SeasonOverlaps(seasons, season) || SeasonExists(seasons, id, season) then seasons
    else seasons[id := season]
  }

  function DeleteSeason(seasons: map<Id, Season>, id: Id): map<Id, Season> {
    seasons - {id}
  }

  // ----- Idempotency records -----

  function SaveIdempotencyRecord(t: Tables, key: RecordKey, record: IdempotencyRecord): map<RecordKey, IdempotencyRecord> {
    if key in t.records || key.userId !in t.accounts.users then t.records else t.records[key := record]
  }

  // ----- Traces of repository calls -----

  datatype AccountCall =
    | CallAddUser(id: Id, handle: string, role: PlatformRole, membership: Option<Membership>)
    | CallSetUserPlatformRole(id: Id, role: PlatformRole)
    | CallSetUserDisabled(id: Id, disabled: bool, at: Time)
    | CallSetOrganizationMemberRole(organizationId: Id, userId: Id, admin: bool)
    | CallRemoveOrganizationMember(organizationId: Id, userId: Id)
    | CallCreateOrganization(id: Id, organization: Organization)
    | CallRotateJoinCode(id: Id, hash: string)

  datatype LabCall =
    | CallCreateLab(id: Id, ownerId: Id, shape: LabShape, config: map<string, string>)
    | CallUpdateLabConfig(id: Id, patch: map<string, string>)
    | CallSaveValidation(id: Id, passed: bool, evidence: seq<(string, bool)>)
    | CallQuarantineLab(id: Id, quarantine: Quarantine)
    | CallReleaseLabQuarantine(id: Id)

  datatype AccessCall =
    | CallCreateRun(id: Id, run: Run)
    | CallUpdateRunReadiness(userId: Id, id: Id, status: RunStatus)
    | CallMarkRunExpired(id: Id, at: Time)
    | CallMarkRunStopped(id: Id, at: Time, actor: Id, reason: string)
    | CallCreateAccessTicket(hash: string, runId: Id, userId: Id, kind: TicketKind, expiresAt: Time)
    | CallConsumeAccessTicket(hash: string, kind: TicketKind, at: Time)
    | CallRecordAudit(row: AuditRow)

  datatype Call =
    | OnAccounts(account: AccountCall)
    | OnContent(lab: LabCall)
    | OnAccess(access: AccessCall)
    | OnScores(result: ChallengeResult)
    | OnSeasons(seasonId: Id, season: Option<Season>)
    | OnRecords(key: RecordKey, record: IdempotencyRecord)

  function ApplyAccount(a: Accounts, call: AccountCall): Accounts {
    match call
    case CallAddUser(id, handle, role, membership) => AddUser(a, id, handle, role, membership)
    case CallSetUserPlatformRole(id, role) => SetUserPlatformRole(a, id, role)
    case CallSetUserDisabled(id, disabled, at) => SetUserDisabled(a, id, disabled, at)
    case CallSetOrganizationMemberRole(org, userId, admin) => SetOrganizationMemberRole(a, org, userId, admin)
    case CallRemoveOrganizationMember(org, userId) => RemoveOrganizationMember(a, org, userId)
    case CallCreateOrganization(id, organization) => CreateOrganization(a, id, organization)
    case CallRotateJoinCode(id, hash) => RotateJoinCode(a, id, hash)
  }

  function ApplyLab(t: Tables, call: LabCall): Content {
    match call
    case CallCreateLab(id, ownerId, shape, config) => CreateLab(t, id, ownerId, shape, config)
    case CallUpdateLabConfig(id, patch) => UpdateLabConfig(t.content, id, patch)
    case CallSaveValidation(id, passed, evidence) => SaveValidation(t.content, id, passed, evidence)
    case CallQuarantineLab(id, quarantine) => QuarantineLab(t.content, id, quarantine)
    case CallReleaseLabQuarantine(id) => ReleaseLabQuarantine(t.content, id)
  }

  function ApplyAccess(t: Tables, call: AccessCall): Access {
    match call
    case CallCreateRun(id, run) => CreateRun(t, id, run)
    case CallUpdateRunReadiness(userId, id, status) => UpdateRunReadiness(t.access, userId, id, status)
    case CallMarkRunExpired(id, at) => MarkRunExpired(t.access, id, at)
    case CallMarkRunStopped(id, at, actor, reason) => MarkRunStopped(t.access, id, at, actor, reason)
    case CallCreateAccessTicket(hash, runId, userId, kind, expiresAt) =>
      CreateAccessTicket(t, hash, runId, userId, kind, expiresAt)
    case CallConsumeAccessTicket(hash, kind, at) => ConsumeAccessTicket(t.access, hash, kind, at)
    case CallRecordAudit(row) => RecordAudit(t.access, row)
  }

  function Apply(t: Tables, call: Call): Tables {
    match call
    case OnAccounts(account) => t.(accounts := ApplyAccount(t.accounts, account))
    case OnContent(lab) => t.(content := ApplyLab(t, lab))
    case OnAccess(access) => t.(access := ApplyAccess(t, access))
    case OnScores(result) => t.(scores := SaveChallengeResult(t, result))
    case OnSeasons(id, season) =>
      t.(seasons := if season.Some? then CreateSeason(t.seasons, id, season.value) else DeleteSeason(t.seasons, id))
    case OnRecords(key, record) => t.(records := SaveIdempotencyRecord(t, key, record))
  }

  /** The tables after a trace of calls, in any interleaving. */
  function ApplyAll(t: Tables, calls: seq<Call>): Tables
    decreases calls
  {
    if calls == [] then t else ApplyAll(Apply(t, calls[0]), calls[1..])
  }

  lemma {:induction false} ApplyAllSplit(t: Tables, a: seq<Call>, b: seq<Call>)
    ensures ApplyAll(t, a + b) == ApplyAll(ApplyAll(t, a), b)
    decreases a
  {
    if a == [] {
      assert a + b == b;
    } else {
      assert (a + b)[1..] == a[1..] + b;
      ApplyAllSplit(Apply(t, a[0]), a[1..], b);
    }
  }
}
