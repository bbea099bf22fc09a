/** Draft, validated and quarantined labs under any interleaving of repository calls. */
module LabLifecycle {
  import opened Wrappers
  import opened Tables

  predicate AdminQuarantined(c: Content, id: Id) {
    id in c.labs && c.labs[id].adminQuarantine.Some?
  }

  predicate HasStatus(c: Content, id: Id, status: LabStatus) {
    id in c.labs && c.labs[id].status == status
  }

  predicate Releases(call: Call, id: Id) {
    call.OnContent? && call.lab.CallReleaseLabQuarantine? && call.lab.id == id
  }

  predicate Passes(call: Call, id: Id) {
    call.OnContent? && call.lab.CallSaveValidation? && call.lab.id == id && call.lab.passed
  }

  predicate NoReleaseOf(calls: seq<Call>, id: Id) {
    forall i :: 0 <= i < |calls| ==> !Releases(calls[i], id)
  }

  /** An administrative quarantine always shows as the quarantined status. */
  ghost predicate QuarantineVisible(c: Content) {
    forall id :: AdminQuarantined(c, id) ==> HasStatus(c, id, Quarantined)
  }

  lemma StepKeepsQuarantine(t: Tables, call: Call, id: Id)
    requires AdminQuarantined(t.content, id) ==> HasStatus(t.content, id, Quarantined)
    ensures AdminQuarantined(Apply(t, call).content, id) ==> HasStatus(Apply(t, call).content, id, Quarantined)
    ensures AdminQuarantined(t.content, id) && !Releases(call, id) ==> AdminQuarantined(Apply(t, call).content, id)
  {}

  lemma {:induction false} QuarantineVisibleReachable(t: Tables, calls: seq<Call>)
    requires QuarantineVisible(t.content)
    ensures QuarantineVisible(ApplyAll(t, calls).content)
    decreases calls
  {
    if calls != [] {
      forall id | AdminQuarantined(Apply(t, calls[0]).content, id)
        ensures HasStatus(Apply(t, calls[0]).content, id, Quarantined)
      {
        StepKeepsQuarantine(t, calls[0], id);
      }
      QuarantineVisibleReachable(Apply(t, calls[0]), calls[1..]);
    }
  }

  /** A quarantine an administrator placed survives every call except a release of
      that lab: no validation result lifts it. */
  lemma {:induction false} OnlyReleaseLiftsQuarantine(t: Tables, calls: seq<Call>, id: Id)
    requires AdminQuarantined(t.content, id) && HasStatus(t.content, id, Quarantined)
    requires NoReleaseOf(calls, id)
    ensures AdminQuarantined(ApplyAll(t, calls).content, id)
    ensures HasStatus(ApplyAll(t, calls).content, id, Quarantined)
    decreases calls
  {
    if calls != [] {
      assert !Releases(calls[0], id);
      StepKeepsQuarantine(t, calls[0], id);
      OnlyReleaseLiftsQuarantine(Apply(t, calls[0]), calls[1..], id);
    }
  }

  /** A release acts on quarantined labs only, clears the administrator's mark and
      always lands on draft, whatever the lab had been before. */
  lemma ReleaseLandsOnDraft(c: Content, id: Id)
    ensures HasStatus(c, id, Quarantined) ==>
              && HasStatus(ReleaseLabQuarantine(c, id), id, Draft)
              && !AdminQuarantined(ReleaseLabQuarantine(c, id), id)
    ensures !HasStatus(c, id, Quarantined) ==> ReleaseLabQuarantine(c, id) == c
    ensures forall other :: other in c.labs && other != id ==>
              other in ReleaseLabQuarantine(c, id).labs && ReleaseLabQuarantine(c, id).labs[other] == c.labs[other]
  {}

  lemma OnlyPassValidates(t: Tables, call: Call, id: Id)
    requires HasStatus(Apply(t, call).content, id, Validated) && !HasStatus(t.content, id, Validated)
    ensures Passes(call, id)
  {}

  /** From call `i` on, the lab is validated after every call of the trace. */
  ghost predicate ValidatedFrom(t: Tables, calls: seq<Call>, id: Id, i: nat) {
    forall k :: i < k <= |calls| ==> HasStatus(ApplyAll(t, calls[..k]).content, id, Validated)
  }

  lemma ValidatedOneMore(t: Tables, calls: seq<Call>, id: Id, i: nat)
    requires i < |calls| - 1 && ValidatedFrom(t, calls[..|calls| - 1], id, i)
    requires HasStatus(ApplyAll(t, calls).content, id, Validated)
    ensures ValidatedFrom(t, calls, id, i)
  {
    var prefix := calls[..|calls| - 1];
    forall k | i < k <= |calls| ensures HasStatus(ApplyAll(t, calls[..k]).content, id, Validated) {
      if k < |calls| { assert prefix[..k] == calls[..k]; } else { assert calls[..k] == calls; }
    }
  }

  /** A validated lab owes its status to one passing validation after which it has
      been validated in every state, so neither a failed validation nor a
      quarantine nor a release came in between. */
  lemma {:induction false} ValidatedSinceAPass(t: Tables, calls: seq<Call>, id: Id)
    requires !HasStatus(t.content, id, Validated)
    requires HasStatus(ApplyAll(t, calls).content, id, Validated)
    ensures exists i :: 0 <= i < |calls| && Passes(calls[i], id) && ValidatedFrom(t, calls, id, i)
    decreases |calls|
  {
    var n := |calls|;
    var prefix := calls[..n - 1];
    var earlier := ApplyAll(t, prefix);
    assert calls == prefix + [calls[n - 1]];
    ApplyAllSplit(t, prefix, [calls[n - 1]]);
    assert calls[..n] == calls;
    if HasStatus(earlier.content, id, Validated) {
      ValidatedSinceAPass(t, prefix, id);
      var i :| 0 <= i < |prefix| && Passes(prefix[i], id) && ValidatedFrom(t, prefix, id, i);
      ValidatedOneMore(t, calls, id, i);
      assert Passes(calls[i], id) && ValidatedFrom(t, calls, id, i);
    } else {
      OnlyPassValidates(earlier, calls[n - 1], id);
      assert Passes(calls[n - 1], id) && ValidatedFrom(t, calls, id, n - 1);
    }
  }

  /** After a release the lab is validated only through a new passing validation. */
  lemma ReleasedNeedsNewPass(t: Tables, released: Tables, calls: seq<Call>, id: Id)
    requires HasStatus(t.content, id, Quarantined) && released == Apply(t, OnContent(CallReleaseLabQuarantine(id)))
    requires HasStatus(ApplyAll(released, calls).content, id, Validated)
    ensures exists i :: 0 <= i < |calls| && Passes(calls[i], id) && ValidatedFrom(released, calls, id, i)
  {
    assert !HasStatus(released.content, id, Validated) by { ReleaseLandsOnDraft(t.content, id); }
    ValidatedSinceAPass(released, calls, id);
  }

  ghost predicate ConfigKept(before: Content, after: Content, id: Id)
    requires id in before.labs
  {
    && id in after.labs
    && after.labs[id].config == before.labs[id].config
    && after.labs[id].ownerId == before.labs[id].ownerId
    && after.labs[id].status != Draft
  }

  lemma StepKeepsConfig(t: Tables, call: LabCall, id: Id)
    requires id in t.content.labs && t.content.labs[id].status != Draft && !Releases(OnContent(call), id)
    ensures ConfigKept(t.content, ApplyLab(t, call), id)
  {
    match call
    case CallCreateLab(_, _, _, _) =>
    case CallUpdateLabConfig(other, patch) =>
      assert UpdateLabConfig(t.content, other, patch).labs[id] == t.content.labs[id];
    case CallSaveValidation(_, _, _) =>
    case CallQuarantineLab(_, _) =>
    case CallReleaseLabQuarantine(_) =>
  }

  /** What was reviewed is what runs: once a lab has left draft its configuration
      does not change, and it cannot return to draft, until a release of that lab. */
  lemma {:induction false} ConfigFrozenOutsideDraft(t: Tables, calls: seq<Call>, id: Id)
    requires id in t.content.labs && t.content.labs[id].status != Draft
    requires NoReleaseOf(calls, id)
    ensures ConfigKept(t.content, ApplyAll(t, calls).content, id)
    decreases calls
  {
    if calls != [] {
      assert !Releases(calls[0], id);
      if calls[0].OnContent? { StepKeepsConfig(t, calls[0].lab, id); }
      ConfigFrozenOutsideDraft(Apply(t, calls[0]), calls[1..], id);
    }
  }

  /** The hidden questions of a lab, and how it is reached, never change. */
  lemma {:induction false} ShapeFrozen(t: Tables, calls: seq<Call>, id: Id)
    requires id in t.content.labs
    ensures id in ApplyAll(t, calls).content.labs && ApplyAll(t, calls).content.labs[id].shape == t.content.labs[id].shape
    decreases calls
  {
    if calls != [] {
      if calls[0].OnContent? { StepKeepsShape(t, calls[0].lab, id); }
      ShapeFrozen(Apply(t, calls[0]), calls[1..], id);
    }
  }

  lemma StepKeepsShape(t: Tables, call: LabCall, id: Id)
    requires id in t.content.labs
    ensures id in ApplyLab(t, call).labs && ApplyLab(t, call).labs[id].shape == t.content.labs[id].shape
  {
    match call
    case CallCreateLab(_, _, _, _) =>
    case CallUpdateLabConfig(_, _) =>
    case CallSaveValidation(_, _, _) =>
    case CallQuarantineLab(_, _) =>
    case CallReleaseLabQuarantine(_) =>
  }
}
