/** Idempotency keys over whole histories: an operation takes effect at most once
    for a key, and whoever asks again gets the stored answer or a refusal. */
module IdempotentReplay {
  import opened Wrappers
  import opened JsonText
  import opened CanonicalJson
  import opened JsonFields
  import opened Tables
  import opened Requests
  import opened AdminSafety

  // ----- Records outlive everything -----

  lemma QuietKeepsRecords(t: Tables, call: QuietCall)
    ensures Apply(t, call).records == t.records
  {
    match call
    case _ =>
  }

  lemma PerformKeepsRecords(t: Tables, r: Request, listed: seq<Id>)
    requires Admission(t, r).None? && Perform(t, r, listed).Ok?
    ensures Perform(t, r, listed).value.tables.records == t.records
    ensures r.actor in Perform(t, r, listed).value.tables.accounts.users
  {
    AdmittedActor(t, r);
  }

  lemma RecordsAfter(sha256: Text -> string, t: Tables, e: Event)
    ensures forall k :: k in t.records ==> k in After(sha256, t, e).records && After(sha256, t, e).records[k] == t.records[k]
  {
    match e
    case Background(call) => QuietKeepsRecords(t, call);
    case Asked(r, listed) =>
      if Handle(sha256, t, r, listed).tables != t { PerformKeepsRecords(t, r, listed); }
  }

  lemma {:induction false} RecordPersists(sha256: Text -> string, t: Tables, events: seq<Event>, k: RecordKey)
    requires k in t.records
    ensures k in AfterAll(sha256, t, events).records && AfterAll(sha256, t, events).records[k] == t.records[k]
    decreases events
  {
    if events != [] {
      RecordsAfter(sha256, t, events[0]);
      RecordPersists(sha256, After(sha256, t, events[0]), events[1..], k);
    }
  }

  // ----- One request -----

  /** An operation is performed only under an unused key, which it then uses up. */
  lemma PerformedUsesKey(sha256: Text -> string, t: Tables, r: Request, listed: seq<Id>)
    requires Handle(sha256, t, r, listed).outcome.Performed?
    ensures KeyOf(r) !in t.records
    ensures var h := Handle(sha256, t, r, listed);
            && KeyOf(r) in h.tables.records
            && h.tables.records[KeyOf(r)].requestHash == RequestDigest(sha256, Envelope(r))
            && h.tables.records[KeyOf(r)].response == Kept(h.outcome.payload)
  {
    PerformKeepsRecords(t, r, listed);
  }

  lemma UnperformedChangesNothing(sha256: Text -> string, t: Tables, r: Request, listed: seq<Id>)
    requires !Handle(sha256, t, r, listed).outcome.Performed?
    ensures Handle(sha256, t, r, listed).tables == t
  {}

  /** Objects of two members that agree in the first are equivalent when the second ones are. */
  lemma SecondDecides(first: string, second: string, id: Text, v: Json, w: Json)
    requires first != second
    ensures Equivalent(Two(first, Str(id), second, v), Two(first, Str(id), second, w)) <==> Equivalent(v, w)
  {
    var a, b := Utf16(first), Utf16(second);
    Utf16Apart(first, second);
    MembersLookedUp(a, b, Str(id), v);
    MembersLookedUp(a, b, Str(id), w);
    assert Equivalent(Str(id), Str(id));
  }

  lemma MembersLookedUp(a: Text, b: Text, x: Json, v: Json)
    requires a != b
    ensures var members := [Member(a, x), Member(b, v)];
            && (forall k :: k in Keys(members) <==> k == a || k == b)
            && Lookup(members, a) == x && Lookup(members, b) == v
  {
    assert Keys([Member(a, x), Member(b, v)]) == [a, b];
  }

  /** Within one operation the digested envelopes tell exactly the bodies apart. */
  lemma EnvelopesMatch(r: Request, s: Request)
    requires r.operation == s.operation
    ensures Equivalent(Envelope(r), Envelope(s)) <==> Equivalent(r.body, s.body)
  {
    if !r.operation.OpCreateOrganization? {
      assert |EnvelopeName(r.operation)| != |BODY|;
      SecondDecides(EnvelopeName(r.operation), BODY, Utf16(r.operation.resourceId), r.body, s.body);
    }
  }

  /** What happens under a key that is in use: an equal body gets the stored answer,
      any other body is refused, and nothing changes either way. */
  lemma UsedKey(sha256: Text -> string, t: Tables, r: Request, first: Request, listed: seq<Id>)
    requires TellsApart(sha256, Envelope(r), Envelope(first))
    requires KeyOf(r) == KeyOf(first) && KeyOf(r) in t.records
    requires t.records[KeyOf(r)].requestHash == RequestDigest(sha256, Envelope(first))
    ensures Handle(sha256, t, r, listed).tables == t
    ensures Handle(sha256, t, r, listed).outcome
         == if Admission(t, r).Some? then Rejected(Admission(t, r).value)
            else if Equivalent(r.body, first.body) then Replayed(t.records[KeyOf(r)].response)
            else Rejected(KeyReused)
  {
    EnvelopesMatch(first, r);
    EnvelopesMatch(r, first);
    DigestIffEquivalent(sha256, Envelope(r), Envelope(first));
  }

  // ----- Whole histories -----

  /** The answer given to a request under a key that an earlier request used up,
      after anything at all happened in between. */
  lemma LaterRequest(sha256: Text -> string, t: Tables, first: Request, listed: seq<Id>, between: seq<Event>,
                     later: Request, again: seq<Id>)
    requires TellsApart(sha256, Envelope(later), Envelope(first))
    requires Handle(sha256, t, first, listed).outcome.Performed?
    requires KeyOf(later) == KeyOf(first)
    ensures var answer := Handle(sha256, t, first, listed).outcome.payload;
            var u := AfterAll(sha256, Handle(sha256, t, first, listed).tables, between);
            && Handle(sha256, u, later, again).tables == u
            && Handle(sha256, u, later, again).outcome
            == if Admission(u, later).Some? then Rejected(Admission(u, later).value)
               else if Equivalent(later.body, first.body) then Replayed(Kept(answer))
               else Rejected(KeyReused)
  {
    var after := Handle(sha256, t, first, listed).tables;
    PerformedUsesKey(sha256, t, first, listed);
    RecordPersists(sha256, after, between, KeyOf(first));
    UsedKey(sha256, AfterAll(sha256, after, between), later, first, again);
  }

  predicate PerformsKey(sha256: Text -> string, t: Tables, e: Event, k: RecordKey) {
    e.Asked? && KeyOf(e.request) == k && Handle(sha256, t, e.request, e.listed).outcome.Performed?
  }

  function TimesPerformed(sha256: Text -> string, t: Tables, events: seq<Event>, k: RecordKey): nat
    decreases events
  {
    if events == [] then 0
    else (if PerformsKey(sha256, t, events[0], k) then 1 else 0)
         + TimesPerformed(sha256, After(sha256, t, events[0]), events[1..], k)
  }

  /** The effect happens at most once per key, and exactly when the key becomes used. */
  lemma {:induction false} PerformedAtMostOnce(sha256: Text -> string, t: Tables, events: seq<Event>, k: RecordKey)
    ensures TimesPerformed(sha256, t, events, k)
         == if k !in t.records && k in AfterAll(sha256, t, events).records then 1 else 0
    decreases events
  {
    if events != [] {
      var next := After(sha256, t, events[0]);
      PerformedAtMostOnce(sha256, next, events[1..], k);
      RecordsAfter(sha256, t, events[0]);
      if k in next.records { RecordPersists(sha256, next, events[1..], k); }
      KeyAppears(sha256, t, events[0], k);
    }
  }

  lemma KeyAppears(sha256: Text -> string, t: Tables, e: Event, k: RecordKey)
    ensures k !in t.records && k in After(sha256, t, e).records <==> PerformsKey(sha256, t, e, k)
  {
    match e
    case Background(call) => QuietKeepsRecords(t, call);
    case Asked(r, listed) =>
      if Handle(sha256, t, r, listed).outcome.Performed? {
        PerformedUsesKey(sha256, t, r, listed);
        PerformKeepsRecords(t, r, listed);
      } else {
        UnperformedChangesNothing(sha256, t, r, listed);
      }
  }

  // ----- Join codes -----

  /** No stored answer holds a join code. */
  ghost predicate CodesWithheld(t: Tables) {
    forall k :: k in t.records ==> !Discloses(t.records[k].response)
  }

  lemma CodesWithheldAfter(sha256: Text -> string, t: Tables, e: Event)
    requires CodesWithheld(t)
    ensures CodesWithheld(After(sha256, t, e))
  {
    match e
    case Background(call) => QuietKeepsRecords(t, call);
    case Asked(r, listed) =>
      if Handle(sha256, t, r, listed).outcome.Performed? {
        PerformKeepsRecords(t, r, listed);
        PerformedUsesKey(sha256, t, r, listed);
      } else {
        UnperformedChangesNothing(sha256, t, r, listed);
      }
  }

  lemma {:induction false} CodesWithheldReachable(sha256: Text -> string, t: Tables, events: seq<Event>)
    requires CodesWithheld(t)
    ensures CodesWithheld(AfterAll(sha256, t, events))
    decreases events
  {
    if events != [] {
      CodesWithheldAfter(sha256, t, events[0]);
      CodesWithheldReachable(sha256, After(sha256, t, events[0]), events[1..]);
    }
  }

  /** A join code leaves the server only in the answer to the request that made it:
      a response discloses one exactly when it performs one of the two operations. */
  lemma CodeOnlyInFirstAnswer(sha256: Text -> string, t: Tables, events: seq<Event>, r: Request, listed: seq<Id>)
    requires CodesWithheld(t)
    ensures var u := AfterAll(sha256, t, events);
            var outcome := Handle(sha256, u, r, listed).outcome;
            && (outcome.Replayed? ==> !Discloses(outcome.payload))
            && (outcome.Performed? ==>
                  (Discloses(outcome.payload) <==> r.operation.OpCreateOrganization? || r.operation.OpRotateJoinCode?))
  {
    CodesWithheldReachable(sha256, t, events);
  }
}
