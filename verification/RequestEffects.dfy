/** What the words of a request do: for each administrative operation and for a deployment,
    exactly when it is carried out and what it leaves in the tables. */
module RequestEffects {
  import opened Wrappers
  import opened JsonText
  import opened CanonicalJson
  import opened JsonFields
  import opened Tables
  import opened Repository
  import opened RunReaper
  import opened Requests
  import opened AdminSafety

  // ----- Reasons -----

  /** `core` is what is left of the text without the white space around it. */
  ghost predicate Trims(text: Text, core: Text) {
    exists a, b :: 0 <= a <= b <= |text| && Core(text, core, a, b)
  }

  ghost predicate Core(text: Text, core: Text, a: nat, b: nat)
    requires a <= b <= |text|
  {
    && core == text[a..b]
    && (forall i :: 0 <= i < a || b <= i < |text| ==> IsSpace(text[i]))
    && (core != [] ==> !IsSpace(core[0]) && !IsSpace(core[|core| - 1]))
  }

  lemma CoreInTail(text: Text, core: Text)
    requires text != [] && IsSpace(text[0]) && Trims(text[1..], core)
    ensures Trims(text, core)
  {
    var a, b :| 0 <= a <= b <= |text[1..]| && Core(text[1..], core, a, b);
    assert Core(text, core, a + 1, b + 1);
  }

  lemma CoreInFront(text: Text, core: Text)
    requires text != [] && IsSpace(text[|text| - 1]) && Trims(text[..|text| - 1], core)
    ensures Trims(text, core)
  {
    var shorter := text[..|text| - 1];
    var a, b :| 0 <= a <= b <= |shorter| && Core(shorter, core, a, b);
    assert Core(text, core, a, b);
  }

  lemma {:induction false} TrimTextTrims(text: Text)
    ensures Trims(text, TrimText(text))
    decreases |text|
  {
    if text == [] {
      assert Core(text, [], 0, 0);
    } else if IsSpace(text[0]) {
      TrimTextTrims(text[1..]);
      CoreInTail(text, TrimText(text[1..]));
    } else if IsSpace(text[|text| - 1]) {
      TrimTextTrims(text[..|text| - 1]);
      CoreInFront(text, TrimText(text[..|text| - 1]));
    } else {
      assert text[0..|text|] == text;
      assert Core(text, text, 0, |text|);
    }
  }

  lemma CoreUnique(text: Text, x: Text, y: Text)
    requires Trims(text, x) && Trims(text, y)
    ensures x == y
  {
    var a, b :| 0 <= a <= b <= |text| && Core(text, x, a, b);
    var c, d :| 0 <= c <= d <= |text| && Core(text, y, c, d);
    if x != [] {
      SameCore(text, x, a, b, y, c, d);
    } else if y != [] {
      SameCore(text, y, c, d, x, a, b);
    }
  }

  lemma SameCore(text: Text, x: Text, a: nat, b: nat, y: Text, c: nat, d: nat)
    requires a <= b <= |text| && c <= d <= |text| && Core(text, x, a, b) && Core(text, y, c, d) && x != []
    ensures x == y
  {
    assert x[0] == text[a] && x[|x| - 1] == text[b - 1];
    assert c <= a < d && c <= b - 1 < d;
    assert y[0] == text[c] && y[|y| - 1] == text[d - 1];
    assert a <= c && d - 1 < b;
  }

  /** The body gives no reason, or one of 1 to 500 printable code units around which white
      space does not count. */
  ghost predicate ReasonFits(body: Json) {
    Field(body, "reason").None?
    || (Field(body, "reason").value.Str? && exists core :: Fits(Field(body, "reason").value.text, core))
  }

  ghost predicate Fits(text: Text, core: Text) {
    Trims(text, core) && 1 <= |core| <= 500 && forall i :: 0 <= i < |core| ==> core[i] > 0x1F && core[i] != 0x7F
  }

  lemma ReasonRefusedIff(body: Json)
    ensures ReasonRefusal(body).None? <==> body.Obj? && ReasonFits(body)
  {
    if Field(body, "reason").Some? && Field(body, "reason").value.Str? {
      var text := Field(body, "reason").value.text;
      TrimTextTrims(text);
      if core :| Fits(text, core) { CoreUnique(text, core, TrimText(text)); }
      assert Fits(text, TrimText(text)) <==> 1 <= |TrimText(text)| <= 500 && Printable(TrimText(text));
    }
  }

  // ----- Admission -----

  /** An enabled platform administrator whose token says so sends the request under a
      proper key that was not used before. */
  predicate AdminSends(t: Tables, r: Request) {
    && r.actor in t.accounts.users && t.accounts.users[r.actor].disabledAt == None
    && t.accounts.users[r.actor].role == PlatformAdmin && r.claimsAdmin
    && ProperKey(r.key) && RecordKey(r.actor, r.operation, r.key) !in t.records
  }

  predicate ProperKey(key: string) { 8 <= |key| <= 128 && forall i :: 0 <= i < |key| ==> 0x21 <= key[i] as int <= 0x7E }

  lemma ProperKeyIs(key: string)
    ensures ValidKey(key) <==> ProperKey(key)
  {
    forall i | 0 <= i < |key| ensures '!' <= key[i] <= '~' <==> 0x21 <= key[i] as int <= 0x7E {}
  }

  lemma CarriedOutIff(sha256: Text -> string, t: Tables, r: Request, listed: seq<Id>)
    ensures Handle(sha256, t, r, listed).outcome.Performed? <==>
              Admission(t, r).None? && KeyOf(r) !in t.records && Perform(t, r, listed).Ok?
    ensures !Handle(sha256, t, r, listed).outcome.Performed? ==> Handle(sha256, t, r, listed).tables == t
    ensures Handle(sha256, t, r, listed).outcome.Performed? ==>
              SameRows(Handle(sha256, t, r, listed).tables, Perform(t, r, listed).value.tables)
  {}

  /** Equal up to the record and the audit row that every performed request leaves. */
  predicate SameRows(t: Tables, u: Tables) {
    && t.accounts == u.accounts && t.content == u.content && t.scores == u.scores && t.seasons == u.seasons
    && t.access.runs == u.access.runs && t.access.tickets == u.access.tickets
  }

  lemma AdminAdmitted(t: Tables, r: Request)
    requires Administrative(r.operation)
    ensures Admission(t, r).None? && KeyOf(r) !in t.records <==> AdminSends(t, r) && BodyRefusal(t, r).None?
  {
    ProperKeyIs(r.key);
  }

  // ----- Roles -----

  /** A role change is carried out exactly for another account that exists and one of the
      two role words, and then the account has the role of that word. */
  lemma RoleWords(sha256: Text -> string, t: Tables, r: Request, listed: seq<Id>, id: Id)
    requires r.operation == OpPlatformRole(id)
    ensures var h, word := Handle(sha256, t, r, listed), Field(r.body, "platformRole");
            && (h.outcome.Performed? <==>
                  && AdminSends(t, r) && r.body.Obj? && ReasonFits(r.body) && id != r.actor && id in t.accounts.users
                  && (word == Some(Str(Utf16("user"))) || word == Some(Str(Utf16("platform_admin")))))
            && (!h.outcome.Performed? ==> h.tables == t)
            && (h.outcome.Performed? && word == Some(Str(Utf16("user"))) ==> SameRows(h.tables, WithRole(t, id, PlainUser)))
            && (h.outcome.Performed? && word == Some(Str(Utf16("platform_admin"))) ==> SameRows(h.tables, WithRole(t, id, PlatformAdmin)))
  {
    CarriedOutIff(sha256, t, r, listed);
    AdminAdmitted(t, r);
    ReasonRefusedIff(r.body);
    RoleOfIs(r.body);
    if Admission(t, r).None? { assert Perform(t, r, listed) == PerformRole(t, id, RoleOf(r.body).value); }
  }

  lemma RoleWordsApart()
    ensures Utf16("user") != Utf16("platform_admin")
  {
    assert |"user"| != |"platform_admin"|;
    Utf16Apart("user", "platform_admin");
  }

  lemma RoleOfIs(body: Json)
    ensures RoleOf(body) == Some(PlainUser) <==> Field(body, "platformRole") == Some(Str(Utf16("user")))
    ensures RoleOf(body) == Some(PlatformAdmin) <==> Field(body, "platformRole") == Some(Str(Utf16("platform_admin")))
    ensures RoleOf(body).Some? ==> Field(body, "platformRole") in {Some(Str(Utf16("user"))), Some(Str(Utf16("platform_admin")))}
  {
    RoleWordsApart();
  }

  function WithRole(t: Tables, id: Id, role: PlatformRole): Tables
    requires id in t.accounts.users
  {
    var users := t.accounts.users;
    t.(accounts := t.accounts.(users := users[id := users[id].(role := role)]))
  }

  // ----- Suspensions -----

  /** `{"suspended": true}` locks another account that exists and ends what it has running;
      `{"suspended": false}` unlocks it and touches no run; any other body is refused. */
  lemma SuspensionWords(sha256: Text -> string, t: Tables, r: Request, listed: seq<Id>, id: Id)
    requires r.operation == OpSuspension(id)
    ensures var h, word := Handle(sha256, t, r, listed), Field(r.body, "suspended");
            && (h.outcome.Performed? <==>
                  && AdminSends(t, r) && r.body.Obj? && ReasonFits(r.body) && id != r.actor && id in t.accounts.users
                  && (word == Some(Bool(true)) || word == Some(Bool(false))))
            && (!h.outcome.Performed? ==> h.tables == t)
            && (h.outcome.Performed? && word == Some(Bool(true)) ==>
                  && h.tables.accounts == WithMark(t, id, Some(r.world.now)).accounts
                  && EndsAllOf(t.access.runs, h.tables.access.runs, id, Termination(Some(r.actor), r.world.now, "account_suspended")))
            && (h.outcome.Performed? && word == Some(Bool(false)) ==> SameRows(h.tables, WithMark(t, id, None)))
  {
    CarriedOutIff(sha256, t, r, listed);
    AdminAdmitted(t, r);
    ReasonRefusedIff(r.body);
    if Admission(t, r).None? {
      assert Perform(t, r, listed) == PerformSuspension(t, r.actor, id, SuspensionOf(r.body).value, r.world.now, listed);
      StopRunsOfEnds(t.access, id, r.world.now, r.actor, SUSPENDED_REASON);
    }
  }

  function WithMark(t: Tables, id: Id, at: Option<Time>): Tables
    requires id in t.accounts.users
  {
    var users := t.accounts.users;
    t.(accounts := t.accounts.(users := users[id := users[id].(disabledAt := at)]))
  }

  /** What was alive for this user is stopped and cleared; every other row is as it was. */
  ghost predicate EndsAllOf(before: map<Id, Run>, after: map<Id, Run>, userId: Id, termination: Termination) {
    && after.Keys == before.Keys
    && forall id :: id in before ==>
         after[id] == if before[id].userId == userId && Alive(before[id])
                      then before[id].(status := Stopped, browserUrl := None, openVpnProfile := None, termination := Some(termination))
                      else before[id]
  }

  // ----- Labs -----

  /** A quarantine takes effect on any lab that exists, with the trimmed reason or the
      default one. */
  lemma QuarantineWords(sha256: Text -> string, t: Tables, r: Request, listed: seq<Id>, id: Id)
    requires r.operation == OpQuarantine(id)
    ensures var h := Handle(sha256, t, r, listed);
            && (h.outcome.Performed? <==> AdminSends(t, r) && r.body.Obj? && ReasonFits(r.body) && id in t.content.labs)
            && (!h.outcome.Performed? ==> h.tables == t)
            && (h.outcome.Performed? ==>
                  exists reason :: QuarantinedWith(h.tables, t, id, Quarantine(r.world.now, r.actor, reason)) && GivenReason(r.body, reason))
  {
    CarriedOutIff(sha256, t, r, listed);
    AdminAdmitted(t, r);
    ReasonRefusedIff(r.body);
    if Handle(sha256, t, r, listed).outcome.Performed? {
      assert Perform(t, r, listed) == PerformQuarantine(t, r.actor, id, r.world.now, ReasonOf(r.body, QUARANTINE_REASON));
      var reason := ReasonOf(r.body, QUARANTINE_REASON);
      if Field(r.body, "reason").Some? { TrimTextTrims(Field(r.body, "reason").value.text); }
      assert QuarantinedWith(Handle(sha256, t, r, listed).tables, t, id, Quarantine(r.world.now, r.actor, reason)) && GivenReason(r.body, reason);
    }
  }

  ghost predicate GivenReason(body: Json, reason: Text) {
    match Field(body, "reason")
    case Some(Str(text)) => Trims(text, reason)
    case _ => reason == Utf16("Administrative quarantine")
  }

  predicate QuarantinedWith(after: Tables, t: Tables, id: Id, mark: Quarantine)
    requires id in t.content.labs
  {
    var labs := t.content.labs;
    SameRows(after, t.(content := t.content.(labs := labs[id := labs[id].(status := Quarantined, adminQuarantine := Some(mark))])))
  }

  /** A release takes effect on quarantined labs only and makes them drafts again. */
  lemma ReleaseWords(sha256: Text -> string, t: Tables, r: Request, listed: seq<Id>, id: Id)
    requires r.operation == OpRelease(id)
    ensures var h, labs := Handle(sha256, t, r, listed), t.content.labs;
            && (h.outcome.Performed? <==>
                  AdminSends(t, r) && r.body.Obj? && ReasonFits(r.body) && id in labs && labs[id].status == Quarantined)
            && (!h.outcome.Performed? ==> h.tables == t)
            && (h.outcome.Performed? ==>
                  SameRows(h.tables, t.(content := t.content.(labs := labs[id := labs[id].(status := Draft, adminQuarantine := None)]))))
  {
    CarriedOutIff(sha256, t, r, listed);
    AdminAdmitted(t, r);
    ReasonRefusedIff(r.body);
    if Admission(t, r).None? { assert Perform(t, r, listed) == PerformRelease(t, id); }
  }

  // ----- Runs -----

  /** A termination stops a run that is not over, unless an adapter refuses to let go of
      it; a run that is over stays as it is. */
  lemma TerminationWords(sha256: Text -> string, t: Tables, r: Request, listed: seq<Id>, id: Id)
    requires r.operation == OpTerminate(id)
    ensures var h, runs := Handle(sha256, t, r, listed), t.access.runs;
            var over := id in runs && (runs[id].status == Stopped || runs[id].status == Expired);
            && (h.outcome.Performed? <==>
                  && AdminSends(t, r) && r.body.Obj? && ReasonFits(r.body) && id in runs
                  && (over || (id !in r.world.runtimeFailing && id !in r.world.telemetryFailing)))
            && (!h.outcome.Performed? ==> h.tables == t)
            && (h.outcome.Performed? && over ==> SameRows(h.tables, t))
            && (h.outcome.Performed? && !over ==>
                  var ended := runs[id].(status := Stopped, browserUrl := None, openVpnProfile := None,
                                         termination := Some(Termination(Some(r.actor), r.world.now, "platform_admin")));
                  SameRows(h.tables, t.(access := t.access.(runs := runs[id := ended]))))
  {
    CarriedOutIff(sha256, t, r, listed);
    AdminAdmitted(t, r);
    ReasonRefusedIff(r.body);
    if Admission(t, r).None? { assert Perform(t, r, listed) == PerformTerminate(t, r.actor, id, r.world); }
  }

  /** `accessMethod`, or `access_method` when the first is missing or null. */
  function ChosenAccess(body: Json): Option<Json> {
    var first := Field(body, "accessMethod");
    if first == None || first == Some(Null) then Field(body, "access_method") else first
  }

  predicate Asks(body: Json, word: string) { ChosenAccess(body) == Some(Str(Utf16(word))) }

  lemma AccessWordsApart()
    ensures Utf16("browser_desktop") != Utf16("openvpn") && Utf16("openvpn") != Utf16("both") && Utf16("browser_desktop") != Utf16("both")
  {
    assert |"browser_desktop"| == 15 && |"openvpn"| == 7 && |"both"| == 4;
    Utf16Apart("browser_desktop", "openvpn");
    Utf16Apart("openvpn", "both");
    Utf16Apart("browser_desktop", "both");
  }

  lemma AccessMethodIs(body: Json)
    ensures AccessMethodOf(body) == Some(BrowserDesktop) <==> Asks(body, "browser_desktop")
    ensures AccessMethodOf(body) == Some(OpenVpnAccess) <==> Asks(body, "openvpn")
    ensures AccessMethodOf(body) == Some(BothWays) <==> Asks(body, "both")
  {
    var chosen := ChosenAccess(body);
    AccessMethodFrom(body);
    if chosen.Some? && chosen.value.Str? { AccessNames(chosen.value.text); }
  }

  lemma AccessMethodFrom(body: Json)
    ensures var chosen := ChosenAccess(body);
            AccessMethodOf(body) == if chosen.Some? && chosen.value.Str? then AccessMethodNamed(chosen.value.text) else None
  {}

  lemma AccessNames(text: Text)
    ensures AccessMethodNamed(text) == Some(BrowserDesktop) <==> text == Utf16("browser_desktop")
    ensures AccessMethodNamed(text) == Some(OpenVpnAccess) <==> text == Utf16("openvpn")
    ensures AccessMethodNamed(text) == Some(BothWays) <==> text == Utf16("both")
  {
    AccessWordsApart();
  }

  /** Each access word needs exactly the ways in that it names; any other word is refused. */
  lemma AccessWords(shape: LabShape, body: Json)
    ensures AccessRefusal(shape, body).None? <==>
              || (Asks(body, "browser_desktop") && shape.desktop)
              || (Asks(body, "openvpn") && shape.openVpn)
              || (Asks(body, "both") && shape.desktop && shape.openVpn)
  {
    AccessMethodIs(body);
    AccessNeeds(shape, AccessMethodOf(body));
    assert AccessRefusal(shape, body).None? <==> AccessMethodOf(body).Some? && Enables(shape, AccessMethodOf(body).value);
  }

  lemma AccessNeeds(shape: LabShape, access: Option<AccessMethod>)
    ensures access.Some? && Enables(shape, access.value) <==>
              || (access == Some(BrowserDesktop) && shape.desktop)
              || (access == Some(OpenVpnAccess) && shape.openVpn)
              || (access == Some(BothWays) && shape.desktop && shape.openVpn)
  {
    if access.Some? {
      match access.value
      case BrowserDesktop =>
      case OpenVpnAccess =>
      case BothWays =>
    }
  }

  /** A lab is in sight of its owner and of the members of its organization. */
  predicate InSight(t: Tables, userId: Id, labId: Id) {
    && labId in t.content.labs
    && (t.content.labs[labId].ownerId == userId
        || (userId in t.accounts.memberships && t.content.labs[labId].organizationId == Some(t.accounts.memberships[userId].organizationId)))
  }

  /** Telemetry of a blue lab: some of it outside development, and none refused. */
  predicate TelemetryReady(shape: LabShape, w: World, events: nat) {
    shape.blue ==> if events == 0 then w.devMode else w.telemetryAccepts
  }

  lemma DeployAdmitted(t: Tables, r: Request, labId: Id)
    requires r.operation == OpDeploy(labId)
    ensures Admission(t, r).None? && KeyOf(r) !in t.records <==>
              && r.actor in t.accounts.users && t.accounts.users[r.actor].disabledAt == None
              && ProperKey(r.key) && RecordKey(r.actor, r.operation, r.key) !in t.records
              && InSight(t, r.actor, labId) && t.content.labs[labId].status == Validated
  {
    ProperKeyIs(r.key);
  }

  lemma DeployDoneIff(t: Tables, r: Request, labId: Id)
    requires labId in t.content.labs && r.actor in t.accounts.users
    ensures PerformDeploy(t, r.actor, labId, r.body, r.world).Ok? <==>
              && AccessRefusal(t.content.labs[labId].shape, r.body).None?
              && r.world.runtime.Some? && r.world.runtime.value.status !in {Stopped, Expired}
              && TelemetryReady(t.content.labs[labId].shape, r.world, r.world.runtime.value.telemetryEvents)
              && r.world.freshId !in t.access.runs
    ensures PerformDeploy(t, r.actor, labId, r.body, r.world).Ok? ==>
              var p := r.world.runtime.value;
              PerformDeploy(t, r.actor, labId, r.body, r.world).value.tables
              == t.(access := t.access.(runs := t.access.runs[r.world.freshId :=
                      Run(labId, r.actor, p.status, p.browserUrl, p.profile, p.expiresAt, r.world.now, None)]))
  {
    var shape := t.content.labs[labId].shape;
    if AccessRefusal(shape, r.body).None? && r.world.runtime.Some? {
      var p := r.world.runtime.value;
      var run := NewRun(r.actor, labId, p, r.world.now);
      assert TelemetryRefusal(shape, r.world).None? <==> TelemetryReady(shape, r.world, p.telemetryEvents);
      assert CanCreateRun(t, r.world.freshId, run) <==> r.world.freshId !in t.access.runs && p.status !in {Stopped, Expired};
      assert run.(termination := None) == run;
    }
  }

  /** A deployment is carried out exactly when an enabled user asks, under a new key, for a
      validated lab in sight in a way the lab enables, and runtime and telemetry are ready;
      then the runtime's run belongs to that user and that lab. */
  lemma DeployWords(sha256: Text -> string, t: Tables, r: Request, listed: seq<Id>, labId: Id)
    requires r.operation == OpDeploy(labId)
    ensures var h := Handle(sha256, t, r, listed);
            && (h.outcome.Performed? <==>
                  && r.actor in t.accounts.users && t.accounts.users[r.actor].disabledAt == None
                  && ProperKey(r.key) && RecordKey(r.actor, r.operation, r.key) !in t.records
                  && InSight(t, r.actor, labId) && t.content.labs[labId].status == Validated
                  && (var shape := t.content.labs[labId].shape;
                      || (Asks(r.body, "browser_desktop") && shape.desktop)
                      || (Asks(r.body, "openvpn") && shape.openVpn)
                      || (Asks(r.body, "both") && shape.desktop && shape.openVpn))
                  && r.world.runtime.Some? && r.world.runtime.value.status !in {Stopped, Expired}
                  && TelemetryReady(t.content.labs[labId].shape, r.world, r.world.runtime.value.telemetryEvents)
                  && r.world.freshId !in t.access.runs)
            && (!h.outcome.Performed? ==> h.tables == t)
            && (h.outcome.Performed? ==>
                  var p := r.world.runtime.value;
                  SameRows(h.tables, t.(access := t.access.(runs := t.access.runs[r.world.freshId :=
                                       Run(labId, r.actor, p.status, p.browserUrl, p.profile, p.expiresAt, r.world.now, None)]))))
  {
    CarriedOutIff(sha256, t, r, listed);
    DeployAdmitted(t, r, labId);
    if Admission(t, r).None? && KeyOf(r) !in t.records {
      DeployDoneIff(t, r, labId);
      AccessWords(t.content.labs[labId].shape, r.body);
      assert Perform(t, r, listed) == PerformDeploy(t, r.actor, labId, r.body, r.world);
    }
  }

  // ----- Organizations -----

  /** Nothing else has this slug or this join-code hash. */
  predicate FreeFor(a: Accounts, organization: Organization) {
    forall o :: o in a.organizations ==>
      a.organizations[o].slug != organization.slug && a.organizations[o].joinCodeHash != organization.joinCodeHash
  }

  lemma OrganizationWords(sha256: Text -> string, t: Tables, r: Request, listed: seq<Id>)
    requires r.operation == OpCreateOrganization
    ensures var h, name := Handle(sha256, t, r, listed), r.world.organization;
            && (h.outcome.Performed? <==>
                  && AdminSends(t, r) && name.Some? && r.world.freshId !in t.accounts.organizations
                  && FreeFor(t.accounts, Organization(name.value.name, name.value.slug, r.world.joinCodeHash)))
            && (!h.outcome.Performed? ==> h.tables == t)
            && (h.outcome.Performed? ==>
                  SameRows(h.tables, t.(accounts := t.accounts.(organizations := t.accounts.organizations[r.world.freshId :=
                                       Organization(name.value.name, name.value.slug, r.world.joinCodeHash)]))))
  {
    CarriedOutIff(sha256, t, r, listed);
    AdminAdmitted(t, r);
    if Admission(t, r).None? { assert Perform(t, r, listed) == PerformCreateOrganization(t, r.world); }
  }

  lemma RotationWords(sha256: Text -> string, t: Tables, r: Request, listed: seq<Id>, id: Id)
    requires r.operation == OpRotateJoinCode(id)
    ensures var h, all := Handle(sha256, t, r, listed), t.accounts.organizations;
            && (h.outcome.Performed? <==>
                  && AdminSends(t, r) && r.body == Obj([]) && id in all
                  && forall o :: o in all && o != id ==> all[o].joinCodeHash != r.world.joinCodeHash)
            && (!h.outcome.Performed? ==> h.tables == t)
            && (h.outcome.Performed? ==>
                  SameRows(h.tables, t.(accounts := t.accounts.(organizations := all[id := all[id].(joinCodeHash := r.world.joinCodeHash)]))))
  {
    CarriedOutIff(sha256, t, r, listed);
    AdminAdmitted(t, r);
    if Admission(t, r).None? { assert Perform(t, r, listed) == PerformRotate(t, id, r.world); }
  }

  // ----- Answers -----

  /** The name under which a performed operation is audited. */
  function AuditName(operation: Operation, suspended: bool): string {
    match operation
    case OpCreateOrganization => "admin.organization_created"
    case OpRotateJoinCode(_) => "admin.organization_join_code_rotated"
    case OpPlatformRole(_) => "admin.user_platform_role_changed"
    case OpSuspension(_) => if suspended then "admin.user_suspended" else "admin.user_reinstated"
    case OpQuarantine(_) => "admin.lab_quarantined"
    case OpRelease(_) => "admin.lab_quarantine_released"
    case OpDeploy(_) => "runtime.deployed"
    case OpTerminate(_) => "admin.runtime_terminated"
    case OpSubmit(_) => "challenge.submitted"
  }

  predicate New(operation: Operation) { operation.OpCreateOrganization? || operation.OpDeploy? || operation.OpSubmit? }

  /** What the answer shows is the row as it now is. */
  ghost predicate ShowsRow(u: Tables, r: Request, id: Id, answer: Payload) {
    match r.operation
    case OpCreateOrganization => id in u.accounts.organizations && answer == OrganizationPayload(u.accounts.organizations[id], Some(r.world.joinCode))
    case OpRotateJoinCode(_) => id in u.accounts.organizations && answer == OrganizationPayload(u.accounts.organizations[id], Some(r.world.joinCode))
    case OpPlatformRole(_) => id in u.accounts.users && answer == UserPayload(u.accounts.users[id], [])
    case OpSuspension(_) => id in u.accounts.users && answer.UserPayload? && answer.user == u.accounts.users[id]
    case OpQuarantine(_) => id in u.content.labs && answer == LabPayload(u.content.labs[id])
    case OpRelease(_) => id in u.content.labs && answer == LabPayload(u.content.labs[id])
    case OpDeploy(_) => id in u.access.runs && answer == RunPayload(u.access.runs[id])
    case OpTerminate(_) => id in u.access.runs && answer == RunPayload(u.access.runs[id])
    case OpSubmit(_) => u.scores.results != [] && answer == ResultPayload(u.scores.results[|u.scores.results| - 1])
  }

  /** The resource of an operation, or the fresh one it makes. */
  function ResourceOf(r: Request): Id { if New(r.operation) then r.world.freshId else r.operation.resourceId }

  /** A performed request answers with its row as it now is, and leaves one audit row of its
      name, for its actor and its resource. */
  lemma AnswersAndAudit(sha256: Text -> string, t: Tables, r: Request, listed: seq<Id>)
    requires Handle(sha256, t, r, listed).outcome.Performed?
    ensures var h := Handle(sha256, t, r, listed);
            && ShowsRow(h.tables, r, ResourceOf(r), h.outcome.payload)
            && h.tables.access.audit
               == t.access.audit + [AuditRow(Some(r.actor), AuditName(r.operation, Field(r.body, "suspended") == Some(Bool(true))), ResourceOf(r))]
  {
    CarriedOutIff(sha256, t, r, listed);
    PerformShows(t, r, listed);
  }

  ghost predicate ShowsDone(t: Tables, r: Request, done: Done) {
    && ShowsRow(done.tables, r, ResourceOf(r), done.answer) && done.resourceId == ResourceOf(r)
    && done.audit == AuditName(r.operation, Field(r.body, "suspended") == Some(Bool(true)))
    && done.tables.access.audit == t.access.audit
  }

  lemma CreationShown(t: Tables, r: Request)
    requires r.operation == OpCreateOrganization && PerformCreateOrganization(t, r.world).Ok?
    ensures ShowsDone(t, r, PerformCreateOrganization(t, r.world).value)
  {}

  lemma RotationShown(t: Tables, r: Request, id: Id)
    requires r.operation == OpRotateJoinCode(id) && PerformRotate(t, id, r.world).Ok?
    ensures ShowsDone(t, r, PerformRotate(t, id, r.world).value)
  {}

  lemma RoleShown(t: Tables, r: Request, id: Id, role: PlatformRole)
    requires r.operation == OpPlatformRole(id) && PerformRole(t, id, role).Ok?
    ensures ShowsDone(t, r, PerformRole(t, id, role).value)
  {}

  lemma SuspensionShown(t: Tables, r: Request, listed: seq<Id>, id: Id)
    requires r.operation == OpSuspension(id) && SuspensionOf(r.body).Some?
    requires PerformSuspension(t, r.actor, id, SuspensionOf(r.body).value, r.world.now, listed).Ok?
    ensures ShowsDone(t, r, PerformSuspension(t, r.actor, id, SuspensionOf(r.body).value, r.world.now, listed).value)
  {}

  lemma QuarantineShown(t: Tables, r: Request, id: Id, reason: Text)
    requires r.operation == OpQuarantine(id) && PerformQuarantine(t, r.actor, id, r.world.now, reason).Ok?
    ensures ShowsDone(t, r, PerformQuarantine(t, r.actor, id, r.world.now, reason).value)
  {}

  lemma ReleaseShown(t: Tables, r: Request, id: Id)
    requires r.operation == OpRelease(id) && PerformRelease(t, id).Ok?
    ensures ShowsDone(t, r, PerformRelease(t, id).value)
  {}

  lemma TerminationShown(t: Tables, r: Request, id: Id)
    requires r.operation == OpTerminate(id) && PerformTerminate(t, r.actor, id, r.world).Ok?
    ensures ShowsDone(t, r, PerformTerminate(t, r.actor, id, r.world).value)
  {}

  lemma DeploymentShown(t: Tables, r: Request, labId: Id)
    requires r.operation == OpDeploy(labId) && labId in t.content.labs && PerformDeploy(t, r.actor, labId, r.body, r.world).Ok?
    ensures ShowsDone(t, r, PerformDeploy(t, r.actor, labId, r.body, r.world).value)
  {
    var done := DeployedAs(t, r.actor, labId, r.body, r.world);
    assert ShowsRow(done.tables, r, r.world.freshId, done.answer);
  }

  lemma DeployedAs(t: Tables, actor: Id, labId: Id, body: Json, w: World) returns (done: Done)
    requires labId in t.content.labs && PerformDeploy(t, actor, labId, body, w).Ok?
    ensures done == PerformDeploy(t, actor, labId, body, w).value
    ensures w.freshId in done.tables.access.runs && done.answer == RunPayload(done.tables.access.runs[w.freshId])
    ensures done.resourceId == w.freshId && done.audit == "runtime.deployed" && done.tables.access.audit == t.access.audit
  {
    done := PerformDeploy(t, actor, labId, body, w).value;
    var run := NewRun(actor, labId, w.runtime.value, w.now);
    assert run.(termination := None) == run;
    assert done == Done(t.(access := CreateRun(t, w.freshId, run)), w.freshId, RunPayload(run), RunPayload(run), "runtime.deployed");
  }

  lemma ResultShown(t: Tables, r: Request, runId: Id)
    requires r.operation == OpSubmit(runId) && runId in t.access.runs && PerformSubmit(t, r.actor, runId, r.body, r.world).Ok?
    ensures ShowsDone(t, r, PerformSubmit(t, r.actor, runId, r.body, r.world).value)
  {}

  lemma PerformShows(t: Tables, r: Request, listed: seq<Id>)
    requires Admission(t, r).None? && Perform(t, r, listed).Ok?
    ensures ShowsDone(t, r, Perform(t, r, listed).value)
  {
    match r.operation
    case OpCreateOrganization => CreationShown(t, r);
    case OpRotateJoinCode(id) => RotationShown(t, r, id);
    case OpPlatformRole(id) => RoleShown(t, r, id, RoleOf(r.body).value);
    case OpSuspension(id) => SuspensionShown(t, r, listed, id);
    case OpQuarantine(id) => QuarantineShown(t, r, id, ReasonOf(r.body, QUARANTINE_REASON));
    case OpRelease(id) => ReleaseShown(t, r, id);
    case OpDeploy(labId) => DeploymentShown(t, r, labId);
    case OpTerminate(id) => TerminationShown(t, r, id);
    case OpSubmit(runId) => ResultShown(t, r, runId);
  }
}
