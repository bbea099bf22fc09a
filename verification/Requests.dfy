/** The mutating requests of the API, each run to completion before the next: who
    may send it, when a stored answer is replayed, and what it does otherwise. */
module Requests {
  import opened Wrappers
  import opened JsonText
  import opened CanonicalJson
  import opened JsonFields
  import opened SubmittedBody
  import Grading
  import opened Submission
  import opened Tables
  import opened RunReaper

  type Body = v: Json | Valid(v) witness Null

  /** What the rest of the world contributes while a request runs: the clock, fresh
      identifiers and secrets, the adapters' answers, the stored and the generated grade
      evidence, and what `Number` makes of a hint count that is no number. */
  datatype World = World(
    now: Time,
    freshId: Id,
    joinCode: string,
    joinCodeHash: string,
    organization: Option<OrganizationName>,
    runtime: Option<Provisioned>,
    telemetryAccepts: bool,
    devMode: bool,
    runtimeFailing: set<Id>,
    telemetryFailing: set<Id>,
    storedEvidence: seq<Grading.Evidence>,
    generatedEvidence: seq<Grading.Evidence>,
    hintCount: Option<real>)

  datatype OrganizationName = OrganizationName(name: string, slug: string)
  datatype Provisioned = Provisioned(
    status: RunStatus, browserUrl: Option<string>, profile: Option<string>, expiresAt: Time, telemetryEvents: nat)

  datatype Request = Request(
    actor: Id, claimsAdmin: bool, operation: Operation, key: string, body: Body, world: World)

  datatype Refusal =
    | UnknownUser | AccountSuspended | PlatformAdminRequired | InvalidKey | InvalidRotation | InvalidMutation
    | InvalidReason | InvalidRole | InvalidSuspension | CannotModifySelf | NotFound | LabNotValidated
    | KeyReused | InvalidOrganization | OrganizationClash | LabNotQuarantined | RuntimeRefused
    | InvalidAccessMethod | AccessMethodNotEnabled | TelemetryNotReady | AdapterUnreachable
    | InvalidSubmission(body: BodyFault) | Ungraded(error: SubmitError) | ResultRefused

  datatype Outcome = Rejected(refusal: Refusal) | Replayed(payload: Payload) | Performed(payload: Payload)

  datatype Response = Response(tables: Tables, outcome: Outcome)

  /** An operation carried out: what is stored for replays and what is answered now. */
  datatype Done = Done(tables: Tables, resourceId: Id, stored: Payload, answer: Payload, audit: string)

  // ----- Reading the body -----

  const REASON := "reason"
  const PLATFORM_ROLE := "platformRole"
  const SUSPENDED := "suspended"

  /** White space and line terminators of ECMA-262. */
  predicate IsSpace(c: CodeUnit) {
    9 <= c <= 13 || c == 0x20 || c == 0xA0 || c == 0x1680 || 0x2000 <= c <= 0x200A || c == 0x2028 || c == 0x2029
    || c == 0x202F || c == 0x205F || c == 0x3000 || c == 0xFEFF
  }

  function TrimText(s: Text): (r: Text)
    ensures r != [] ==> !IsSpace(r[0]) && !IsSpace(r[|r| - 1])
  {
    if s == [] then []
    else if IsSpace(s[0]) then TrimText(s[1..])
    else if IsSpace(s[|s| - 1]) then TrimText(s[..|s| - 1])
    else s
  }

  predicate Printable(s: Text) { forall i :: 0 <= i < |s| ==> s[i] > 0x1F && s[i] != 0x7F }

  function ReasonRefusal(body: Json): Option<Refusal> {
    if !body.Obj? then Some(InvalidMutation)
    else
      match Field(body, REASON)
      case None => None
      case Some(Str(text)) =>
        var reason := TrimText(text);
        if 1 <= |reason| <= 500 && Printable(reason) then None else Some(InvalidReason)
      case Some(_) => Some(InvalidReason)
  }

  const QUARANTINE_REASON := "Administrative quarantine"

  function ReasonOf(body: Json, fallback: string): Text {
    match Field(body, REASON)
    case Some(Str(text)) => TrimText(text)
    case _ => Utf16(fallback)
  }

  function RoleOf(body: Json): Option<PlatformRole> {
    match Field(body, PLATFORM_ROLE)
    case Some(Str(text)) =>
      if text == Utf16("user") then Some(PlainUser)
      else if text == Utf16("platform_admin") then Some(PlatformAdmin)
      else None
    case _ => None
  }

  function SuspensionOf(body: Json): Option<bool> {
    match Field(body, SUSPENDED)
    case Some(Bool(b)) => Some(b)
    case _ => None
  }

  datatype AccessMethod = BrowserDesktop | OpenVpnAccess | BothWays

  function AccessMethodNamed(text: Text): Option<AccessMethod> {
    if text == Utf16("browser_desktop") then Some(BrowserDesktop)
    else if text == Utf16("openvpn") then Some(OpenVpnAccess)
    else if text == Utf16("both") then Some(BothWays)
    else None
  }

  /** `accessMethod`, or `access_method` where the first is missing or null. */
  function AccessMethodOf(body: Json): Option<AccessMethod> {
    var first := Field(body, "accessMethod");
    var chosen := if first.None? || first.value == Null then Field(body, "access_method") else first;
    match chosen
    case Some(Str(text)) => AccessMethodNamed(text)
    case _ => None
  }

  predicate Enables(shape: LabShape, access: AccessMethod) {
    match access
    case BrowserDesktop => shape.desktop
    case OpenVpnAccess => shape.openVpn
    case BothWays => shape.desktop && shape.openVpn
  }

  predicate ValidKey(key: string) {
    8 <= |key| <= 128 && forall i :: 0 <= i < |key| ==> '!' <= key[i] <= '~'
  }

  // ----- Admission: everything that is checked before a stored answer is looked up -----

  predicate Administrative(operation: Operation) { !operation.OpDeploy? && !operation.OpSubmit? }

  predicate EnabledUser(a: Accounts, id: Id) { id in a.users && a.users[id].disabledAt.None? }

  predicate EnabledAdmin(a: Accounts, id: Id) { EnabledUser(a, id) && a.users[id].role == PlatformAdmin }

  function AccountRefusal(t: Tables, r: Request): Option<Refusal> {
    if r.actor !in t.accounts.users then Some(UnknownUser)
    else if t.accounts.users[r.actor].disabledAt.Some? then Some(AccountSuspended)
    else if Administrative(r.operation) && (!r.claimsAdmin || t.accounts.users[r.actor].role != PlatformAdmin)
    then Some(PlatformAdminRequired)
    else None
  }

  function BodyRefusal(t: Tables, r: Request): Option<Refusal> {
    match r.operation
    case OpCreateOrganization => None
    case OpRotateJoinCode(_) => if r.body == Obj([]) then None else Some(InvalidRotation)
    case OpQuarantine(_) => ReasonRefusal(r.body)
    case OpRelease(_) => ReasonRefusal(r.body)
    case OpTerminate(_) => ReasonRefusal(r.body)
    case OpPlatformRole(userId) =>
      if !r.body.Obj? then Some(InvalidMutation)
      else if RoleOf(r.body).None? then Some(InvalidRole)
      else if ReasonRefusal(r.body).Some? then ReasonRefusal(r.body)
      else if userId == r.actor then Some(CannotModifySelf)
      else None
    case OpSuspension(userId) =>
      if !r.body.Obj? then Some(InvalidMutation)
      else if SuspensionOf(r.body).None? then Some(InvalidSuspension)
      else if ReasonRefusal(r.body).Some? then ReasonRefusal(r.body)
      else if userId == r.actor then Some(CannotModifySelf)
      else None
    case OpDeploy(labId) =>
      if !CanSeeLab(t, r.actor, labId) then Some(NotFound)
      else if t.content.labs[labId].status != Validated then Some(LabNotValidated)
      else None
    case OpSubmit(runId) =>
      if runId in t.access.runs && t.access.runs[runId].userId == r.actor then None else Some(NotFound)
  }

  function Admission(t: Tables, r: Request): Option<Refusal> {
    if AccountRefusal(t, r).Some? then AccountRefusal(t, r)
    else if BodyRefusal(t, r).Some? then BodyRefusal(t, r)
    else if !ValidKey(r.key) then Some(InvalidKey)
    else None
  }

  // ----- Identity of a request -----

  function EnvelopeName(operation: Operation): string {
    match operation
    case OpCreateOrganization => ""
    case OpRotateJoinCode(_) => "organizationId"
    case OpPlatformRole(_) => "userId"
    case OpSuspension(_) => "userId"
    case OpQuarantine(_) => "labId"
    case OpRelease(_) => "labId"
    case OpDeploy(_) => "labId"
    case OpTerminate(_) => "runId"
    case OpSubmit(_) => "runId"
  }

  const BODY := "body"

  /** The value that is digested: the body, together with the resource named in the path. */
  function Envelope(r: Request): (v: Json)
    ensures Valid(v)
  {
    match r.operation
    case OpCreateOrganization => r.body
    case _ =>
      assert |EnvelopeName(r.operation)| != |BODY|;
      TwoValid(EnvelopeName(r.operation), Str(Utf16(r.operation.resourceId)), BODY, r.body);
      Two(EnvelopeName(r.operation), Str(Utf16(r.operation.resourceId)), BODY, r.body)
  }

  function KeyOf(r: Request): RecordKey { RecordKey(r.actor, r.operation, r.key) }

  // ----- The operations -----

  /** The form in which an answer is kept for replays: a join code is not kept. */
  function Kept(payload: Payload): Payload {
    match payload
    case OrganizationPayload(organization, _) => OrganizationPayload(organization, None)
    case _ => payload
  }

  predicate Discloses(payload: Payload) { payload.OrganizationPayload? && payload.joinCode.Some? }

  /** No operation touches the records or closes an account, and what it stores for
      replays is its answer without the join code. */
  predicate Tidy(t: Tables, done: Done) {
    && done.tables.records == t.records
    && t.accounts.users.Keys <= done.tables.accounts.users.Keys
    && done.stored == Kept(done.answer)
  }

  /** No account changes except possibly that of `id`. */
  predicate OthersKept(t: Tables, u: Tables, id: Id) {
    forall other :: other in t.accounts.users && other != id ==>
      other in u.accounts.users && u.accounts.users[other] == t.accounts.users[other]
  }

  function PerformCreateOrganization(t: Tables, w: World): (done: Result<Done, Refusal>)
    ensures done.Ok? ==> Tidy(t, done.value)
    ensures done.Ok? ==> done.value.tables.accounts.users == t.accounts.users
    ensures done.Ok? ==> done.value.tables.access == t.access
    ensures done.Ok? ==> Discloses(done.value.answer)
  {
    if w.organization.None? then Err(InvalidOrganization)
    else
      var organization := Organization(w.organization.value.name, w.organization.value.slug, w.joinCodeHash);
      if w.freshId in t.accounts.organizations || SlugOrCodeTaken(t.accounts, organization) then Err(OrganizationClash)
      else Ok(Done(t.(accounts := CreateOrganization(t.accounts, w.freshId, organization)), w.freshId,
                   OrganizationPayload(organization, None), OrganizationPayload(organization, Some(w.joinCode)),
                   "admin.organization_created"))
  }

  function PerformRotate(t: Tables, id: Id, w: World): (done: Result<Done, Refusal>)
    ensures done.Ok? ==> Tidy(t, done.value)
    ensures done.Ok? ==> done.value.tables.accounts.users == t.accounts.users
    ensures done.Ok? ==> done.value.tables.access == t.access
    ensures done.Ok? ==> Discloses(done.value.answer)
  {
    if id !in t.accounts.organizations then Err(NotFound)
    else if !CanRotate(t.accounts, id, w.joinCodeHash) then Err(OrganizationClash)
    else
      var a := RotateJoinCode(t.accounts, id, w.joinCodeHash);
      Ok(Done(t.(accounts := a), id, OrganizationPayload(a.organizations[id], None),
              OrganizationPayload(a.organizations[id], Some(w.joinCode)), "admin.organization_join_code_rotated"))
  }

  /** An answer that is stored as it was given. */
  function DoneWith(t: Tables, id: Id, payload: Payload, audit: string): Result<Done, Refusal> {
    Ok(Done(t, id, payload, payload, audit))
  }

  function PerformRole(t: Tables, id: Id, role: PlatformRole): (done: Result<Done, Refusal>)
    ensures done.Ok? ==> Tidy(t, done.value)
    ensures done.Ok? ==> OthersKept(t, done.value.tables, id)
    ensures done.Ok? ==> done.value.tables.access == t.access
    ensures done.Ok? ==> !Discloses(done.value.answer)
  {
    if id !in t.accounts.users then Err(NotFound)
    else
      var a := SetUserPlatformRole(t.accounts, id, role);
      DoneWith(t.(accounts := a), id, UserPayload(a.users[id], []), "admin.user_platform_role_changed")
  }

  /** `listed` is the order in which the user's active runs were stopped. */
  function PerformSuspension(t: Tables, actor: Id, id: Id, suspended: bool, now: Time, listed: seq<Id>): (done: Result<Done, Refusal>)
    ensures done.Ok? ==> Tidy(t, done.value)
    ensures done.Ok? ==> OthersKept(t, done.value.tables, id)
    ensures done.Ok? ==> done.value.tables.access.runs.Keys == t.access.runs.Keys
    ensures done.Ok? ==> !Discloses(done.value.answer)
  {
    if id !in t.accounts.users then Err(NotFound)
    else
      var a := SetUserDisabled(t.accounts, id, suspended, now);
      if suspended then
        DoneWith(t.(accounts := a, access := StopRunsOf(t.access, id, now, actor, SUSPENDED_REASON)), id,
                 UserPayload(a.users[id], listed), "admin.user_suspended")
      else DoneWith(t.(accounts := a), id, UserPayload(a.users[id], []), "admin.user_reinstated")
  }

  function PerformQuarantine(t: Tables, actor: Id, id: Id, now: Time, reason: Text): (done: Result<Done, Refusal>)
    ensures done.Ok? ==> Tidy(t, done.value)
    ensures done.Ok? ==> done.value.tables.accounts.users == t.accounts.users
    ensures done.Ok? ==> done.value.tables.access == t.access
    ensures done.Ok? ==> !Discloses(done.value.answer)
  {
    if id !in t.content.labs then Err(NotFound)
    else
      var c := QuarantineLab(t.content, id, Quarantine(now, actor, reason));
      DoneWith(t.(content := c), id, LabPayload(c.labs[id]), "admin.lab_quarantined")
  }

  function PerformRelease(t: Tables, id: Id): (done: Result<Done, Refusal>)
    ensures done.Ok? ==> Tidy(t, done.value)
    ensures done.Ok? ==> done.value.tables.accounts.users == t.accounts.users
    ensures done.Ok? ==> done.value.tables.access == t.access
    ensures done.Ok? ==> !Discloses(done.value.answer)
  {
    if id !in t.content.labs || t.content.labs[id].status != Quarantined then Err(LabNotQuarantined)
    else
      var c := ReleaseLabQuarantine(t.content, id);
      DoneWith(t.(content := c), id, LabPayload(c.labs[id]), "admin.lab_quarantine_released")
  }

  const ADMIN_REASON := "platform_admin"

  /** Unlike the loops, a single termination does not survive an unreachable adapter. */
  function PerformTerminate(t: Tables, actor: Id, id: Id, w: World): (done: Result<Done, Refusal>)
    ensures done.Ok? ==> Tidy(t, done.value)
    ensures done.Ok? ==> done.value.tables.accounts.users == t.accounts.users
    ensures done.Ok? ==> done.value.tables.access.runs.Keys == t.access.runs.Keys
    ensures done.Ok? ==> !Discloses(done.value.answer)
  {
    if id !in t.access.runs then Err(NotFound)
    else if !Terminal(t.access.runs[id].status) && (id in w.runtimeFailing || id in w.telemetryFailing) then Err(AdapterUnreachable)
    else
      var a := MarkRunStopped(t.access, id, w.now, actor, ADMIN_REASON);
      DoneWith(t.(access := a), id, RunPayload(a.runs[id]), "admin.runtime_terminated")
  }

  function AccessRefusal(shape: LabShape, body: Json): Option<Refusal> {
    var access := AccessMethodOf(body);
    if access.None? then Some(InvalidAccessMethod)
    else if !Enables(shape, access.value) then Some(AccessMethodNotEnabled)
    else None
  }

  /** Blue labs need their telemetry: some events outside development, and all of them accepted. */
  function TelemetryRefusal(shape: LabShape, w: World): Option<Refusal>
    requires w.runtime.Some?
  {
    var events := w.runtime.value.telemetryEvents;
    if shape.blue && events == 0 && !w.devMode then Some(TelemetryNotReady)
    else if shape.blue && events > 0 && !w.telemetryAccepts then Some(AdapterUnreachable)
    else None
  }

  function NewRun(actor: Id, labId: Id, p: Provisioned, now: Time): Run {
    Run(labId, actor, p.status, p.browserUrl, p.profile, p.expiresAt, now, None)
  }

  function PerformDeploy(t: Tables, actor: Id, labId: Id, body: Json, w: World): (done: Result<Done, Refusal>)
    requires labId in t.content.labs
    ensures done.Ok? ==> Tidy(t, done.value)
    ensures done.Ok? ==> done.value.tables.accounts.users == t.accounts.users
    ensures done.Ok? ==> forall id :: id in done.value.tables.access.runs && id !in t.access.runs ==>
              done.value.tables.access.runs[id].labId == labId && done.value.tables.access.runs[id].userId == actor
    ensures done.Ok? ==> !Discloses(done.value.answer)
  {
    var shape := t.content.labs[labId].shape;
    if AccessRefusal(shape, body).Some? then Err(AccessRefusal(shape, body).value)
    else if w.runtime.None? then Err(RuntimeRefused)
    else if TelemetryRefusal(shape, w).Some?
    then Err(TelemetryRefusal(shape, w).value)
    else
      var run := NewRun(actor, labId, w.runtime.value, w.now);
      if !CanCreateRun(t, w.freshId, run) then Err(RuntimeRefused)
      else DoneWith(t.(access := CreateRun(t, w.freshId, run)), w.freshId, RunPayload(run), "runtime.deployed")
  }

  const PASS_SCORE := 70.0

  /** The submission's grade against the hidden questions of the run's lab. */
  function GradeFor(lab: Lab, answers: seq<Grading.Answer>, w: World): Result<Grading.RunGrade, SubmitError> {
    SubmitGrade(lab.shape.questions, answers, w.storedEvidence, w.generatedEvidence, PASS_SCORE)
  }

  function ResultOf(actor: Id, labId: Id, runId: Id, run: Grading.RunGrade, hints: nat, w: World): ChallengeResult {
    ChallengeResult(w.freshId, labId, actor, runId, run.awarded, run.maximum, hints, w.now)
  }

  function PerformSubmit(t: Tables, actor: Id, runId: Id, body: Json, w: World): (done: Result<Done, Refusal>)
    requires runId in t.access.runs
    ensures done.Ok? ==> Tidy(t, done.value)
    ensures done.Ok? ==> done.value.tables.accounts.users == t.accounts.users
    ensures done.Ok? ==> done.value.tables.access == t.access
    ensures done.Ok? ==> !Discloses(done.value.answer)
  {
    var labId := t.access.runs[runId].labId;
    var answers := SubmittedAnswers(body);
    if answers.Err? then Err(InvalidSubmission(answers.error))
    else if !CanSeeLab(t, actor, labId) then Err(NotFound)
    else if GradeFor(t.content.labs[labId], answers.value, w).Err?
    then Err(Ungraded(GradeFor(t.content.labs[labId], answers.value, w).error))
    else
      var run := GradeFor(t.content.labs[labId], answers.value, w).value;
      var result := ResultOf(actor, labId, runId, run, HintsUsed(body, w.hintCount), w);
      if HasResultForRun(t.scores, runId) || !Storable(t, result) then Err(ResultRefused)
      else DoneWith(t.(scores := SaveChallengeResult(t, result)), w.freshId, ResultPayload(result), "challenge.submitted")
  }

  function Perform(t: Tables, r: Request, listed: seq<Id>): (done: Result<Done, Refusal>)
    requires Admission(t, r).None?
    ensures done.Ok? ==> Tidy(t, done.value)
    ensures done.Ok? ==> (Discloses(done.value.answer) <==> r.operation.OpCreateOrganization? || r.operation.OpRotateJoinCode?)
    ensures done.Ok? && (r.operation.OpPlatformRole? || r.operation.OpSuspension?) ==>
              OthersKept(t, done.value.tables, r.operation.resourceId)
    ensures done.Ok? && !r.operation.OpPlatformRole? && !r.operation.OpSuspension? ==>
              done.value.tables.accounts.users == t.accounts.users
    ensures done.Ok? && !r.operation.OpDeploy? ==> done.value.tables.access.runs.Keys == t.access.runs.Keys
  {
    match r.operation
    case OpCreateOrganization => PerformCreateOrganization(t, r.world)
    case OpRotateJoinCode(id) => PerformRotate(t, id, r.world)
    case OpPlatformRole(id) => PerformRole(t, id, RoleOf(r.body).value)
    case OpSuspension(id) => PerformSuspension(t, r.actor, id, SuspensionOf(r.body).value, r.world.now, listed)
    case OpQuarantine(id) => PerformQuarantine(t, r.actor, id, r.world.now, ReasonOf(r.body, QUARANTINE_REASON))
    case OpRelease(id) => PerformRelease(t, id)
    case OpTerminate(id) => PerformTerminate(t, r.actor, id, r.world)
    case OpDeploy(labId) => PerformDeploy(t, r.actor, labId, r.body, r.world)
    case OpSubmit(runId) => PerformSubmit(t, r.actor, runId, r.body, r.world)
  }

  // ----- One request -----

  function Handle(sha256: Text -> string, t: Tables, r: Request, listed: seq<Id>): Response {
    var refusal := Admission(t, r);
    if refusal.Some? then Response(t, Rejected(refusal.value))
    else
      var digest := RequestDigest(sha256, Envelope(r));
      if KeyOf(r) in t.records then
        var record := t.records[KeyOf(r)];
        if record.requestHash != digest then Response(t, Rejected(KeyReused))
        else Response(t, Replayed(record.response))
      else
        match Perform(t, r, listed)
        case Err(e) => Response(t, Rejected(e))
        case Ok(done) => Response(Recorded(done, r, digest), Performed(done.answer))
  }

  /** The record and the audit row that follow every operation carried out. */
  function Recorded(done: Done, r: Request, digest: string): Tables {
    done.tables.(
      records := SaveIdempotencyRecord(done.tables, KeyOf(r), IdempotencyRecord(digest, done.resourceId, done.stored)),
      access := RecordAudit(done.tables.access, AuditRow(Some(r.actor), done.audit, done.resourceId)))
  }
}
