/** The route branches as they run: reads, then repository mutations one after the
    other. Each is proved to do what `Requests` says about the whole request. */
module RequestHandler {
  import opened Wrappers
  import opened JsonText
  import opened CanonicalJson
  import opened SubmittedBody
  import opened Submission
  import opened Tables
  import opened Repository
  import opened RunReaper
  import opened Requests

  datatype Reply = Reply(resourceId: Id, stored: Payload, answer: Payload, audit: string)

  /** The tables and the reply are those of the specified operation; a failed one
      leaves the tables alone. */
  predicate Agrees(spec: Result<Done, Refusal>, before: Tables, after: Tables, reply: Result<Reply, Refusal>) {
    match spec
    case Err(e) => reply == Err(e) && after == before
    case Ok(d) => reply == Ok(Reply(d.resourceId, d.stored, d.answer, d.audit)) && after == d.tables
  }

  predicate Suspends(r: Request) { r.operation.OpSuspension? && SuspensionOf(r.body) == Some(true) }

  method CreateOrganizationBranch(repository: SqliteRepository, w: World) returns (reply: Result<Reply, Refusal>)
    modifies repository
    ensures Agrees(PerformCreateOrganization(old(repository.Snapshot()), w), old(repository.Snapshot()), repository.Snapshot(), reply)
  {
    if w.organization.None? { return Err(InvalidOrganization); }
    var organization := Organization(w.organization.value.name, w.organization.value.slug, w.joinCodeHash);
    var created := repository.CreateOrganization(w.freshId, organization);
    if !created { return Err(OrganizationClash); }
    reply := Ok(Reply(w.freshId, OrganizationPayload(organization, None), OrganizationPayload(organization, Some(w.joinCode)),
                      "admin.organization_created"));
  }

  method RotateBranch(repository: SqliteRepository, id: Id, w: World) returns (reply: Result<Reply, Refusal>)
    modifies repository
    ensures Agrees(PerformRotate(old(repository.Snapshot()), id, w), old(repository.Snapshot()), repository.Snapshot(), reply)
  {
    if id !in repository.organizations { return Err(NotFound); }
    var rotated := repository.RotateOrganizationJoinCode(id, w.joinCodeHash);
    if !rotated { return Err(OrganizationClash); }
    var organization := repository.organizations[id];
    reply := Ok(Reply(id, OrganizationPayload(organization, None), OrganizationPayload(organization, Some(w.joinCode)),
                      "admin.organization_join_code_rotated"));
  }

  method RoleBranch(repository: SqliteRepository, id: Id, role: PlatformRole) returns (reply: Result<Reply, Refusal>)
    modifies repository
    ensures Agrees(PerformRole(old(repository.Snapshot()), id, role), old(repository.Snapshot()), repository.Snapshot(), reply)
  {
    var user := repository.SetUserPlatformRole(id, role);
    if user.None? { return Err(NotFound); }
    var payload := UserPayload(user.value, []);
    reply := Ok(Reply(id, payload, payload, "admin.user_platform_role_changed"));
  }

  /** First the account, then every environment its owner could still reach. */
  method SuspensionBranch(repository: SqliteRepository, actor: Id, id: Id, suspended: bool, now: Time,
                          runtime: Adapter, telemetry: Adapter)
    returns (reply: Result<Reply, Refusal>, stopped: seq<Id>)
    requires runtime != telemetry
    modifies repository, runtime, telemetry
    ensures runtime.asked == old(runtime.asked) + stopped && telemetry.asked == old(telemetry.asked) + stopped
    ensures reply.Err? ==> stopped == []
    ensures Agrees(PerformSuspension(old(repository.Snapshot()), actor, id, suspended, now, stopped),
                   old(repository.Snapshot()), repository.Snapshot(), reply)
    ensures suspended && reply.Ok? ==>
              Leading(stopped, ActiveRunsOf(old(repository.runs), id), CreationTimes(old(repository.runs)),
                      |ActiveRunsOf(old(repository.runs), id)|)
  {
    stopped := [];
    var user := repository.SetUserDisabled(id, suspended, now);
    if user.None? { return Err(NotFound), []; }
    if suspended {
      assert repository.Snapshot().access == old(repository.Snapshot()).access;
      var log;
      stopped, log := TerminateRunsForUser(repository, id, actor, SUSPENDED_REASON, now, runtime, telemetry);
    }
    var payload := UserPayload(user.value, stopped);
    reply := Ok(Reply(id, payload, payload, if suspended then "admin.user_suspended" else "admin.user_reinstated"));
  }

  method QuarantineBranch(repository: SqliteRepository, actor: Id, id: Id, now: Time, reason: Text)
    returns (reply: Result<Reply, Refusal>)
    modifies repository
    ensures Agrees(PerformQuarantine(old(repository.Snapshot()), actor, id, now, reason),
                   old(repository.Snapshot()), repository.Snapshot(), reply)
  {
    var lab := repository.QuarantineLab(id, Quarantine(now, actor, reason));
    if lab.None? { return Err(NotFound); }
    reply := Ok(Reply(id, LabPayload(lab.value), LabPayload(lab.value), "admin.lab_quarantined"));
  }

  method ReleaseBranch(repository: SqliteRepository, id: Id) returns (reply: Result<Reply, Refusal>)
    modifies repository
    ensures Agrees(PerformRelease(old(repository.Snapshot()), id), old(repository.Snapshot()), repository.Snapshot(), reply)
  {
    var lab := repository.ReleaseLabQuarantine(id);
    if lab.None? { return Err(LabNotQuarantined); }
    reply := Ok(Reply(id, LabPayload(lab.value), LabPayload(lab.value), "admin.lab_quarantine_released"));
  }

  /** Whether both adapters answer as the request's world says. */
  predicate Answers(runtime: Adapter, telemetry: Adapter, w: World) {
    runtime != telemetry && runtime.failing == w.runtimeFailing && telemetry.failing == w.telemetryFailing
  }

  /** An active run is released first, and a failure of either adapter ends the request
      there; a run that is terminal already is not released again. */
  method TerminateBranch(repository: SqliteRepository, runtime: Adapter, telemetry: Adapter, actor: Id, id: Id, w: World)
    returns (reply: Result<Reply, Refusal>)
    requires Answers(runtime, telemetry, w)
    modifies repository, runtime, telemetry
    ensures Agrees(PerformTerminate(old(repository.Snapshot()), actor, id, w),
                   old(repository.Snapshot()), repository.Snapshot(), reply)
    ensures var active := id in old(repository.runs) && !Terminal(old(repository.runs)[id].status);
            && runtime.asked == old(runtime.asked) + (if active then [id] else [])
            && telemetry.asked == old(telemetry.asked) + (if active && id !in runtime.failing then [id] else [])
  {
    if id !in repository.runs { return Err(NotFound); }
    if !Terminal(repository.runs[id].status) {
      var gone := runtime.Destroy(id);
      if !gone { return Err(AdapterUnreachable); }
      gone := telemetry.Destroy(id);
      if !gone { return Err(AdapterUnreachable); }
    }
    var run := repository.MarkRunStopped(id, w.now, actor, ADMIN_REASON);
    if run.None? { return Err(NotFound); }
    reply := Ok(Reply(id, RunPayload(run.value), RunPayload(run.value), "admin.runtime_terminated"));
  }

  /** The runtime has been provisioned for this request. */
  predicate Provisions(lab: Lab, body: Json, w: World) { AccessRefusal(lab.shape, body).None? && w.runtime.Some? }

  /** Asks the adapters that have something of a failed deployment to take it down. */
  method TakeDown(runtime: Adapter, telemetry: Adapter, id: Id, both: bool)
    requires runtime != telemetry
    modifies runtime, telemetry
    ensures runtime.asked == old(runtime.asked) + [id]
    ensures telemetry.asked == old(telemetry.asked) + (if both then [id] else [])
  {
    var _ := runtime.Destroy(id);
    if both { var _ := telemetry.Destroy(id); }
  }

  /** Whatever goes wrong after provisioning, the runtime is asked to take the new
      environment down again, so a refused deployment leaves none behind. */
  method DeployBranch(repository: SqliteRepository, runtime: Adapter, telemetry: Adapter, actor: Id, labId: Id, body: Json, w: World)
    returns (reply: Result<Reply, Refusal>)
    requires labId in repository.labs && runtime != telemetry
    modifies repository, runtime, telemetry
    ensures Agrees(PerformDeploy(old(repository.Snapshot()), actor, labId, body, w),
                   old(repository.Snapshot()), repository.Snapshot(), reply)
    ensures var provisioned := Provisions(old(repository.labs)[labId], body, w) && reply.Err?;
            && runtime.asked == old(runtime.asked) + (if provisioned then [w.freshId] else [])
            && telemetry.asked == old(telemetry.asked)
                                  + (if provisioned && TelemetryRefusal(old(repository.labs)[labId].shape, w).None? then [w.freshId] else [])
  {
    var shape := repository.labs[labId].shape;
    var refusal := AccessRefusal(shape, body);
    if refusal.Some? { return Err(refusal.value); }
    if w.runtime.None? { return Err(RuntimeRefused); }
    refusal := TelemetryRefusal(shape, w);
    if refusal.Some? {
      TakeDown(runtime, telemetry, w.freshId, false);
      return Err(refusal.value);
    }
    var run := NewRun(actor, labId, w.runtime.value, w.now);
    var created := repository.CreateRun(w.freshId, run);
    if !created {
      TakeDown(runtime, telemetry, w.freshId, true);
      return Err(RuntimeRefused);
    }
    reply := Ok(Reply(w.freshId, RunPayload(run), RunPayload(run), "runtime.deployed"));
  }

  /** Reads the answers, grades them against the lab's hidden questions and books the grade. */
  method SubmitBranch(repository: SqliteRepository, actor: Id, runId: Id, body: Json, w: World) returns (reply: Result<Reply, Refusal>)
    requires runId in repository.runs
    modifies repository
    ensures Agrees(PerformSubmit(old(repository.Snapshot()), actor, runId, body, w),
                   old(repository.Snapshot()), repository.Snapshot(), reply)
  {
    var answers := SubmittedAnswers(body);
    if answers.Err? { return Err(InvalidSubmission(answers.error)); }
    var labId := repository.runs[runId].labId;
    if !CanSeeLab(repository.Snapshot(), actor, labId) { return Err(NotFound); }
    var questions := repository.labs[labId].shape.questions;
    var graded := Submit(questions, answers.value, w.storedEvidence, w.generatedEvidence, PASS_SCORE);
    if graded.Err? { return Err(Ungraded(graded.error)); }
    var result := ResultOf(actor, labId, runId, graded.value.run, HintsUsed(body, w.hintCount), w);
    var saved := repository.SaveChallengeResult(result);
    if saved.Err? { return Err(ResultRefused); }
    reply := Ok(Reply(w.freshId, ResultPayload(result), ResultPayload(result), "challenge.submitted"));
  }

  method PerformBranch(repository: SqliteRepository, runtime: Adapter, telemetry: Adapter, r: Request)
    returns (reply: Result<Reply, Refusal>, stopped: seq<Id>)
    requires Admission(repository.Snapshot(), r).None? && Answers(runtime, telemetry, r.world)
    modifies repository, runtime, telemetry
    ensures Agrees(Perform(old(repository.Snapshot()), r, stopped), old(repository.Snapshot()), repository.Snapshot(), reply)
    ensures reply.Err? && !r.operation.OpDeploy? && !r.operation.OpTerminate? ==>
              runtime.asked == old(runtime.asked) && telemetry.asked == old(telemetry.asked)
    ensures Suspends(r) && reply.Ok? ==>
              Leading(stopped, ActiveRunsOf(old(repository.runs), r.operation.resourceId), CreationTimes(old(repository.runs)),
                      |ActiveRunsOf(old(repository.runs), r.operation.resourceId)|)
  {
    stopped := [];
    match r.operation
    case OpCreateOrganization => reply := CreateOrganizationBranch(repository, r.world);
    case OpRotateJoinCode(id) => reply := RotateBranch(repository, id, r.world);
    case OpPlatformRole(id) => reply := RoleBranch(repository, id, RoleOf(r.body).value);
    case OpSuspension(id) =>
      reply, stopped := SuspensionBranch(repository, r.actor, id, SuspensionOf(r.body).value, r.world.now, runtime, telemetry);
    case OpQuarantine(id) =>
      reply := QuarantineBranch(repository, r.actor, id, r.world.now, ReasonOf(r.body, QUARANTINE_REASON));
    case OpRelease(id) => reply := ReleaseBranch(repository, id);
    case OpTerminate(id) => reply := TerminateBranch(repository, runtime, telemetry, r.actor, id, r.world);
    case OpDeploy(labId) => reply := DeployBranch(repository, runtime, telemetry, r.actor, labId, r.body, r.world);
    case OpSubmit(runId) => reply := SubmitBranch(repository, r.actor, runId, r.body, r.world);
  }

  /** Guard, replay lookup, operation, record, audit row: the whole request equals
      its specification, with `stopped` the order the termination loop used. */
  method Route(repository: SqliteRepository, runtime: Adapter, telemetry: Adapter, sha256: Text -> string, r: Request)
    returns (outcome: Outcome, stopped: seq<Id>)
    requires Answers(runtime, telemetry, r.world)
    modifies repository, runtime, telemetry
    ensures !outcome.Performed? && !r.operation.OpDeploy? && !r.operation.OpTerminate? ==>
              runtime.asked == old(runtime.asked) && telemetry.asked == old(telemetry.asked)
    ensures Response(repository.Snapshot(), outcome) == Handle(sha256, old(repository.Snapshot()), r, stopped)
    ensures Suspends(r) && outcome.Performed? ==>
              Leading(stopped, ActiveRunsOf(old(repository.runs), r.operation.resourceId), CreationTimes(old(repository.runs)),
                      |ActiveRunsOf(old(repository.runs), r.operation.resourceId)|)
  {
    stopped := [];
    var refusal := Admission(repository.Snapshot(), r);
    if refusal.Some? { return Rejected(refusal.value), []; }
    var digest := RequestDigest(sha256, Envelope(r));
    if KeyOf(r) in repository.records {
      var record := repository.records[KeyOf(r)];
      if record.requestHash != digest { return Rejected(KeyReused), []; }
      return Replayed(record.response), [];
    }
    ghost var before := repository.Snapshot();
    var reply;
    reply, stopped := PerformBranch(repository, runtime, telemetry, r);
    match reply
    case Err(e) => outcome := Rejected(e);
    case Ok(done) =>
      repository.SaveIdempotencyRecord(KeyOf(r), IdempotencyRecord(digest, done.resourceId, done.stored));
      repository.RecordAudit(AuditRow(Some(r.actor), done.audit, done.resourceId));
      outcome := Performed(done.answer);
  }
}
