/** The recovery operations as the operator performs them on the remote resources: read, decide,
    update the tags, read again and verify. Undisturbed, every verification succeeds and each
    operation has exactly the effect RecoveryCalls gives it. */
module IdentityClients {
  import opened OwnershipTags
  import opened Azure
  import opened TagWrites
  import opened RecoveryCalls

  class IdentityClients {
    const uamiId: string
    var identity: Option<Uami>
    var credentials: seq<Fic>

    constructor (uamiId: string, identity: Option<Uami>, credentials: seq<Fic>)
      ensures Contents() == Remote(uamiId, identity, credentials)
    {
      this.uamiId := uamiId;
      this.identity := identity;
      this.credentials := credentials;
    }

    ghost function Contents(): Remote
      reads this
    {
      Remote(uamiId, identity, credentials)
    }

    /** getRecoveryUserAssignedIdentity; None stands for its blocked errors. */
    method GetRecoveryUserAssignedIdentity(t: Ident) returns (found: Option<Uami>)
      ensures found == if identity.Some? && RecoverableUami(uamiId, t.key, identity.value) then identity else None
    {
      if identity.None? {
        return None;
      }
      var response := identity.value;
      if !EqualFold(response.id, uamiId) {
        return None;
      }
      var currentOwner := TagValue(response.tags, OwnerUid);
      var expected := OperatorOwnershipTags(currentOwner, true);
      expected := expected[LogicalKeyTag := LogicalKey(t.key)];
      if !HasTags(response.tags, expected) {
        return None;
      }
      if response.clientId == "" || response.principalId == "" || response.tenantId == "" {
        return None;
      }
      return Some(response);
    }

    /** loadAndValidateRecoveryState. */
    method LoadAndValidateRecoveryState(k: Caller) returns (uami: Option<Uami>, stage: Option<Stage>)
      ensures stage == StageAt(Contents(), k) && (stage.Some? ==> uami == identity)
      ensures stage.Some? ==>
                identity.Some? && k.plan.Some? && !Replaced(identity.value, k.plan.value) && BaseOwnership(k.target.key, identity.value.tags)
      ensures stage.Some? ==> EqualFold(identity.value.id, uamiId) && RecoveryStage(k.request, k.target.uid, identity.value) == stage
    {
      uami := GetRecoveryUserAssignedIdentity(k.target);
      stage := None;
      if uami.None? {
        return;
      }
      stage := RecoveryStage(k.request, k.target.uid, uami.value);
      if stage.None? {
        return;
      }
      if k.plan.None? || !PlanMatches(uami.value, k.plan.value) {
        stage := None;
      }
    }

    method UpdateRecoveryTags(tags: Tags)
      modifies this`identity
      ensures identity == if old(identity).Some? then Some(old(identity).value.(tags := tags)) else None
    {
      if identity.Some? {
        identity := Some(identity.value.(tags := tags));
      }
    }

    /** verifyRecoveryStage. */
    method VerifyRecoveryStage(k: Caller, expected: Stage) returns (verified: bool)
      ensures verified <==> StageAt(Contents(), k) == Some(expected)
    {
      var uami := GetRecoveryUserAssignedIdentity(k.target);
      if uami.None? {
        return false;
      }
      var stage := RecoveryStage(k.request, k.target.uid, uami.value);
      if stage != Some(expected) {
        return false;
      }
      verified := k.plan.Some? && PlanMatches(uami.value, k.plan.value);
    }

    /** validateCommittedFederatedIdentityCredential. */
    method ValidateCommittedCredential(k: Caller) returns (exact: bool)
      requires k.plan.Some?
      ensures exact <==> Exact(Contents(), k)
    {
      if |credentials| != 1 {
        return false;
      }
      var current := credentials[0];
      if !LocatedAt(current, k.target.ficName, FicId(uamiId, k.target.ficName)) {
        return false;
      }
      exact := current.tuple == Some(k.plan.value.tuple);
    }

    /** Inspect: preflight reads only, and plans only what the later operations will accept. */
    method Inspect(r: Request, t: Ident, issuer: string, subject: string) returns (plan: Option<Plan>)
      ensures plan.Some? ==>
                plan.value.tuple == Tuple(issuer, subject, [AUDIENCE]) && identity.Some? &&
                StageAt(Contents(), Caller(r, t, plan)) == RecoveryStage(r, t.uid, identity.value) &&
                StageAt(Contents(), Caller(r, t, plan)).Some?
      ensures plan.Some? ==> RecoverableFics(uamiId, t, credentials)
      ensures plan.None? ==>
                identity.None? || !RecoverableUami(uamiId, t.key, identity.value) || RecoveryStage(r, t.uid, identity.value).None? ||
                !RecoverableFics(uamiId, t, credentials)
    {
      var uami := GetRecoveryUserAssignedIdentity(t);
      if uami.None? {
        return None;
      }
      var stage := RecoveryStage(r, t.uid, uami.value);
      if stage.None? {
        return None;
      }
      if |credentials| > 1 {
        return None;
      }
      if |credentials| == 1 && !LocatedAt(credentials[0], t.ficName, FicId(uamiId, t.ficName)) {
        return None;
      }
      plan := Some(PlanFor(uami.value, issuer, subject));
    }

    method MarkInProgress(k: Caller) returns (outcome: Outcome)
      requires Admitted(k)
      modifies this`identity
      ensures (Contents(), outcome) == Effect(old(Contents()), k, Call.MarkInProgress)
      ensures old(identity.Some? && k.plan.Some? && Replaced(identity.value, k.plan.value)) ==>
                outcome == BlockedCall && Contents() == old(Contents())
    {
      hide Load;
      hide EqualFold;
      var uami, stage := LoadAndValidateRecoveryState(k);
      if stage.None? {
        return BlockedCall;
      }
      if stage.value != NotStarted {
        return Succeeded;
      }
      AfterMark(uamiId, k.request, k.target, k.plan, identity.value, uami.value.tags);
      var tags := MergeTags(uami.value.tags, map[RecoveryUid := k.request.uid, TargetUid := k.target.uid]);
      UpdateRecoveryTags(tags);
      var verified := VerifyRecoveryStage(k, InProgress);
      outcome := if verified then Succeeded else BlockedCall;
    }

    method EnsureFederatedIdentityCredential(k: Caller) returns (outcome: Outcome)
      modifies this`credentials
      ensures (Contents(), outcome) == Effect(old(Contents()), k, Call.EnsureFederatedIdentityCredential)
      ensures old(identity.Some? && k.plan.Some? && Replaced(identity.value, k.plan.value)) ==>
                outcome == BlockedCall && Contents() == old(Contents())
    {
      hide ExactFics;
      hide Upsert;
      var uami, stage := LoadAndValidateRecoveryState(k);
      if stage.None? || stage.value == NotStarted {
        return BlockedCall;
      }
      if stage.value == InProgress {
        credentials := Upsert(uamiId, k.target.ficName, k.plan.value.tuple, credentials);
      }
      var exact := ValidateCommittedCredential(k);
      outcome := if exact then Succeeded else BlockedCall;
    }

    method Commit(k: Caller) returns (outcome: Outcome)
      requires Admitted(k)
      modifies this`identity
      ensures (Contents(), outcome) == Effect(old(Contents()), k, Call.Commit)
      ensures old(identity.Some? && k.plan.Some? && Replaced(identity.value, k.plan.value)) ==>
                outcome == BlockedCall && Contents() == old(Contents())
    {
      hide Load;
      hide ExactFics;
      var uami, stage := LoadAndValidateRecoveryState(k);
      if stage.None? || stage.value == NotStarted {
        return BlockedCall;
      }
      var exact := ValidateCommittedCredential(k);
      if !exact {
        return BlockedCall;
      }
      if stage.value == CommittedFenced || stage.value == Complete {
        return Succeeded;
      }
      AfterCommit(uamiId, k.request, k.target, k.plan, identity.value, uami.value.tags);
      var tags := MergeTags(uami.value.tags, map[OwnerUid := k.target.uid, LastRecoveryUid := k.request.uid]);
      UpdateRecoveryTags(tags);
      var verified := VerifyRecoveryStage(k, CommittedFenced);
      if !verified {
        return BlockedCall;
      }
      exact := ValidateCommittedCredential(k);
      outcome := if exact then Succeeded else BlockedCall;
    }

    method Finalize(k: Caller) returns (outcome: Outcome)
      requires Admitted(k)
      modifies this`identity
      ensures (Contents(), outcome) == Effect(old(Contents()), k, Call.Finalize)
      ensures old(identity.Some? && k.plan.Some? && Replaced(identity.value, k.plan.value)) ==>
                outcome == BlockedCall && Contents() == old(Contents())
    {
      hide Load;
      hide ExactFics;
      var uami, stage := LoadAndValidateRecoveryState(k);
      if stage.None? || (stage.value != CommittedFenced && stage.value != Complete) {
        return BlockedCall;
      }
      var exact := ValidateCommittedCredential(k);
      if !exact {
        return BlockedCall;
      }
      if stage.value == Complete {
        return Succeeded;
      }
      AfterFinalize(uamiId, k.request, k.target, k.plan, identity.value, uami.value.tags);
      var tags := uami.value.tags;
      tags := tags - {RecoveryUid};
      tags := tags - {TargetUid};
      assert tags == WithoutFence(uami.value.tags);
      UpdateRecoveryTags(tags);
      var verified := VerifyRecoveryStage(k, Complete);
      if !verified {
        return BlockedCall;
      }
      exact := ValidateCommittedCredential(k);
      outcome := if exact then Succeeded else BlockedCall;
    }
  }
}
