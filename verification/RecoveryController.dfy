/** The recovery controller as it is written: reconciles made of API calls on the cluster, between
    any two of which everybody else may act, and any of which may be the last
    (internal/controller/workloadidentityrecovery_controller.go, and the Azure half
    internal/azure/workload_identity_recovery.go).

    Every method leaves the cluster in a state that its run leads to, so each theorem about
    runs holds at every call. */
module RecoveryController {
  import opened OwnershipTags
  import opened Azure
  import opened Resources
  import opened Target
  import opened ServiceAccounts
  import opened Protocol
  import opened Invariant
  import opened Safety
  import opened LockTheorems
  import opened SafetyTheorems
  import opened Runs
  import opened Cluster
  import opened RecoveryAnswers
  import opened Convergence
  import opened ConvergenceTheorems
  import opened Passes
  import opened Deletion
  import Election

  /** Done, a blocked error that the caller records, or an error that ends the reconcile. */
  datatype CallOutcome = Done | BlockedCall | Errored

  const NO_PLAN := Plan("", "", "", "", Tuple("", "", []))

  lemma ValidIsSafe(c: Cluster)
    requires c.Valid()
    ensures Inv(c.Now()) && Election.DistinctUids(c.recs.Values)
  {
    ReachableIsSafe(c.start, c.log);
    hide Run;
    hide WorkerTraced;
    hide Init;
    RecordsAreDistinct(c.Now());
  }

  /** What an undisturbed reconcile does for u, from a state of a run. */
  lemma ReconcileServes(start: State, log: seq<Action>, s: State, u: Uid, c: Choice, k: nat, after: State)
    requires Init(start) && s == Run(start, log) && u in s.st.recs && after.worker.Idle?
    requires Calls(s.st, Enter(s.st.recs[u], c.configured), c, k) == Position(after.st, after.worker)
    ensures CheckpointTaken(s.st, u, c, after.st) && DeletionServed(s.st, u, c, after.st)
  {
    ReachableIsKept(start, log);
    hide Run;
    hide Init;
    hide Calls;
    hide Enter;
    hide Kept;
    ReconcileTakesOne(s, u, c, k, after.st);
    ReconcileServesDeletion(s.st, u, c, k, after.st);
  }

  /** The release of recovery u under deletion was called on the stores the run had reached at k. */
  ghost predicate ReleasedAt(start: State, log: seq<Action>, u: Uid, at: At, k: nat) {
    k < |log| && log[k].WorkerCall? &&
    var s := Run(start, log[..k]);
    s.worker == Busy(u, true, at) && u in s.st.recs && (at.ReleaseCompleted? ==> IsComplete(s.st.recs[u]))
  }

  /** Some other recovery of the source had won when the records were listed at k. */
  ghost predicate LostAt(start: State, log: seq<Action>, u: Uid, k: nat) {
    k < |log| && log[k].WorkerCall? &&
    var s := Run(start, log[..k]);
    s.worker == Busy(u, true, ListForCancel) && u in s.st.recs && !Elected(s.st.recs, u)
  }

  /** Why a deleted recovery may go: what had started was completed and released, what had not was
      released or had nothing to release. */
  ghost predicate MayGo(start: State, log: seq<Action>, r: Recovery, k: nat) {
    if r.started then ReleasedAt(start, log, r.uid, ReleaseCompleted(true), k)
    else ReleasedAt(start, log, r.uid, ReleaseCancelled, k) || LostAt(start, log, r.uid, k)
  }

  lemma MayGoStays(start: State, log: seq<Action>, later: seq<Action>, r: Recovery, k: nat)
    requires MayGo(start, log, r, k) && log <= later
    ensures MayGo(start, later, r, k)
  {
    hide Run;
    hide Elected;
    assert k < |log| && later[..k] == log[..k];
  }

  lemma RecordsAreDistinct(s: State)
    requires Inv(s)
    ensures Election.DistinctUids(s.st.recs.Values)
  {
    forall a, b | a in s.st.recs.Values && b in s.st.recs.Values && a.uid == b.uid
      ensures a == b
    {
      var u :| u in s.st.recs && s.st.recs[u] == a;
      var v :| v in s.st.recs && s.st.recs[v] == b;
      assert u == a.uid && v == b.uid;
    }
    hide Inv;
  }

  /** The UAMI of st may be taken by r, and the plan is the one for it. */
  ghost predicate PlannedOn(st: Store, r: Recovery, t: Ident, plan: Plan, issuer: string) {
    st.uami.Some? && RecoverableUami(st.uamiId, t.key, st.uami.value) &&
    RecoveryStage(Req(r), t.uid, st.uami.value).Some? && plan == PlanFor(st.uami.value, issuer, Subject(t))
  }

  /** So it was after the first `seen` actions of the run. */
  ghost predicate PlannedAt(start: State, log: seq<Action>, r: Recovery, t: Ident, plan: Plan, issuer: string, seen: nat) {
    seen <= |log| && PlannedOn(Run(start, log[..seen]).st, r, t, plan, issuer)
  }

  /** And the issuer was the answer to call `issued`. */
  ghost predicate PlannedFrom(start: State, log: seq<Action>, r: Recovery, t: Ident, plan: Plan, issued: nat, seen: nat) {
    issued < seen <= |log| && log[issued].WorkerCall? && log[issued].c.issuer.Some? &&
    PlannedAt(start, log, r, t, plan, log[issued].c.issuer.value, seen)
  }

  lemma PlannedNow(start: State, log: seq<Action>, s: State, r: Recovery, t: Ident, plan: Plan, issuer: string)
    requires s == Run(start, log) && PlannedOn(s.st, r, t, plan, issuer)
    ensures PlannedAt(start, log, r, t, plan, issuer, |log|)
  {
    hide Run;
    hide PlannedOn;
    assert log[..|log|] == log;
  }

  lemma PlannedStays(start: State, log: seq<Action>, later: seq<Action>, r: Recovery, t: Ident, plan: Plan, issuer: string, seen: nat)
    requires PlannedAt(start, log, r, t, plan, issuer, seen) && log <= later
    ensures PlannedAt(start, later, r, t, plan, issuer, seen)
  {
    hide Run;
    hide PlannedOn;
    assert later[..seen] == log[..seen];
  }

  lemma PlannedOnAnswer(start: State, log: seq<Action>, later: seq<Action>, r: Recovery, t: Ident, plan: Plan, c: Choice, seen: nat)
    requires log <= later && log != [] && log[|log| - 1] == WorkerCall(c) && c.issuer.Some?
    requires |log| <= seen && PlannedAt(start, later, r, t, plan, c.issuer.value, seen)
    ensures PlannedFrom(start, later, r, t, plan, |log| - 1, seen)
  {
    hide Run;
    hide PlannedOn;
    assert later[|log| - 1] == log[|log| - 1];
  }

  class RecoveryReconciler {
    const cluster: Cluster
    const configured: bool

    constructor (cluster: Cluster, configured: bool)
      ensures this.cluster == cluster && this.configured == configured
    {
      this.cluster, this.configured := cluster, configured;
    }

    /** The reconcile of r is about to make the call at `at`. */
    ghost predicate Stands(r: Recovery, del: bool, at: At)
      reads cluster
    {
      cluster.Valid() && cluster.Holds(r) && cluster.worker == Busy(r.uid, del, at)
    }

    ghost predicate Ended()
      reads cluster
    {
      cluster.Failed()
    }

    /** How an operation ended: ready for the next call, for the Blocked patch, or for nothing. */
    ghost predicate Left(r: Recovery, del: bool, outcome: CallOutcome, next: At)
      reads cluster
    {
      match outcome
      case Done => Stands(r, del, next)
      case BlockedCall => Stands(r, del, PatchStatus(PatchBlocked))
      case Errored => Ended()
    }

    // -------------------------------------------------------------- the Azure half

    /** verifyRecoveryStage. */
    method VerifyRecoveryStage(r: Recovery, ghost del: bool, ghost at: At, t: Ident, expected: Stage) returns (outcome: CallOutcome)
      requires (at.MarkVerify? || at.CommitVerify? || at.FinalizeVerify?) && at.t == t && expected == ExpectedAt(at) && Stands(r, del, at)
      modifies cluster
      ensures cluster.Since(old(cluster.Sign())) && Left(r, del, outcome, VerifiedTo(at))
      ensures outcome.Done? ==> StageFor(cluster.Stores(), r, t) == Some(expected)
    {
      hide Load;
      hide Read;
      hide Run;
      hide WorkerTraced;
      hide Init;
      var ok, uami := cluster.GetUami(r);
      if !ok {
        return Errored;
      }
      VerifyAnswer(cluster.Stores(), r, del, at, cluster.answer);
      outcome := if Load(cluster.uamiId, Req(r), t, r.plan, uami) == Some(expected) then Done else BlockedCall;
    }

    /** validateCommittedFederatedIdentityCredential. */
    method ValidateCommittedCredential(r: Recovery, ghost del: bool, ghost at: At, t: Ident) returns (outcome: CallOutcome)
      requires ChecksCredentials(at) && at.t == t && r.plan.Some? && Stands(r, del, at)
      modifies cluster
      ensures cluster.Since(old(cluster.Sign())) && Left(r, del, outcome, ExactTo(at))
      ensures outcome.Done? ==> ExactFor(cluster.Stores(), r, t)
    {
      hide ExactFics;
      hide Read;
      hide Run;
      hide WorkerTraced;
      hide Init;
      var ok, credentials := cluster.ListCredentials(r);
      if !ok {
        return Errored;
      }
      CredentialsAnswer(cluster.Stores(), r, del, at, cluster.answer);
      outcome := if ExactFics(cluster.uamiId, t, r.plan.value.tuple, credentials) then Done else BlockedCall;
    }

    /** MarkInProgress. Done means that the fence of r is on the UAMI now. */
    method MarkInProgress(r: Recovery, ghost del: bool, t: Ident) returns (outcome: CallOutcome)
      requires Stands(r, del, MarkGet(t))
      modifies cluster
      ensures cluster.Since(old(cluster.Sign())) && Left(r, del, outcome, FicGet(t))
      ensures outcome.Done? ==>
                StageFor(cluster.Stores(), r, t).Some? && StageFor(cluster.Stores(), r, t) != Some(NotStarted)
    {
      hide Load;
      hide Read;
      hide Write;
      hide AfterWrite;
      hide MergeTags;
      hide SameButDeleting;
      hide Run;
      hide WorkerTraced;
      hide Init;
      var ok, uami := cluster.GetUami(r);
      if !ok {
        return Errored;
      }
      MarkGetAnswer(cluster.Stores(), r, del, t, cluster.answer);
      var stage := Load(cluster.uamiId, Req(r), t, r.plan, uami);
      if stage.None? {
        return BlockedCall;
      }
      if stage.value != NotStarted {
        return Done;
      }
      var tags := MergeTags(uami.value.tags, map[RecoveryUid := r.uid, TargetUid := t.uid]);
      ghost var st;
      ok, st := cluster.UpdateRecoveryTags(r, tags);
      if !ok {
        return Errored;
      }
      outcome := VerifyRecoveryStage(r, del, MarkVerify(t), t, InProgress);
    }

    /** EnsureFederatedIdentityCredential. Done means that the planned credential is the only one. */
    method EnsureFederatedIdentityCredential(r: Recovery, ghost del: bool, t: Ident) returns (outcome: CallOutcome)
      requires Stands(r, del, FicGet(t)) && r.plan.Some?
      modifies cluster
      ensures cluster.Since(old(cluster.Sign())) && Left(r, del, outcome, SaGet(t))
      ensures outcome.Done? ==> ExactFor(cluster.Stores(), r, t)
    {
      hide Load;
      hide Read;
      hide Write;
      hide AfterWrite;
      hide ExactFics;
      hide Run;
      hide WorkerTraced;
      hide Init;
      var ok, uami := cluster.GetUami(r);
      if !ok {
        return Errored;
      }
      FicGetAnswer(cluster.Stores(), r, del, t, cluster.answer);
      var stage := Load(cluster.uamiId, Req(r), t, r.plan, uami);
      if stage.None? || stage.value == NotStarted {
        return BlockedCall;
      }
      if stage.value == InProgress {
        ghost var st;
        ok, st := cluster.CreateOrUpdateCredential(r, t.ficName, r.plan.value.tuple);
        if !ok {
          return Errored;
        }
      }
      outcome := ValidateCommittedCredential(r, del, FicVerify(t), t);
    }

    /** The writing half of Commit, on the tags that were read. */
    method TransferOwnership(r: Recovery, ghost del: bool, t: Ident, existing: Tags) returns (outcome: CallOutcome)
      requires Stands(r, del, CommitPut(t, existing)) && r.plan.Some?
      modifies cluster
      ensures cluster.Since(old(cluster.Sign())) && Left(r, del, outcome, PatchStatus(PatchCommitVerified))
      ensures outcome.Done? ==> ExactFor(cluster.Stores(), r, t)
    {
      hide Write;
      hide AfterWrite;
      hide MergeTags;
      hide StageFor;
      hide ExactFor;
      hide Run;
      hide WorkerTraced;
      hide Init;
      var tags := MergeTags(existing, map[OwnerUid := t.uid, LastRecoveryUid := r.uid]);
      ghost var st;
      var ok;
      ok, st := cluster.UpdateRecoveryTags(r, tags);
      if !ok {
        return Errored;
      }
      outcome := VerifyRecoveryStage(r, del, CommitVerify(t), t, CommittedFenced);
      if outcome != Done {
        return;
      }
      outcome := ValidateCommittedCredential(r, del, CommitFicsAfter(t), t);
    }

    /** Commit. Done means that the UAMI is the target's, still fenced by r, with the planned
        credential and no other. */
    method Commit(r: Recovery, ghost del: bool, t: Ident) returns (outcome: CallOutcome)
      requires Stands(r, del, CommitGet(t)) && r.plan.Some?
      modifies cluster
      ensures cluster.Since(old(cluster.Sign())) && Left(r, del, outcome, PatchStatus(PatchCommitVerified))
      ensures outcome.Done? ==> ExactFor(cluster.Stores(), r, t) && CommittedUnderFence(r)
    {
      hide Load;
      hide Read;
      hide ExactFor;
      hide CommittedUnderFence;
      hide Run;
      hide WorkerTraced;
      hide Init;
      var ok, uami := cluster.GetUami(r);
      if !ok {
        return Errored;
      }
      CommitGetAnswer(cluster.Stores(), r, del, t, cluster.answer);
      var stage := Load(cluster.uamiId, Req(r), t, r.plan, uami);
      if stage.None? || stage.value == NotStarted {
        return BlockedCall;
      }
      outcome := ValidateCommittedCredential(r, del, CommitFics(t, stage.value, uami.value.tags), t);
      if outcome != Done {
        return;
      }
      if stage.value == InProgress {
        outcome := TransferOwnership(r, del, t, uami.value.tags);
      }
      if outcome == Done {
        CommittedIsFenced(r, del);
      }
    }

    ghost predicate CommittedUnderFence(r: Recovery)
      reads cluster
    {
      r.target in cluster.local ==>
        cluster.uami.Some? && Owner(cluster.uami.value) == r.target && Fence(cluster.uami.value) == r.uid
    }

    lemma CommittedIsFenced(r: Recovery, del: bool)
      requires Stands(r, del, PatchStatus(PatchCommitVerified))
      ensures CommittedUnderFence(r)
    {
      ValidIsSafe(cluster);
      hide Run;
      hide WorkerTraced;
      hide Init;
      var s := cluster.Now();
      assert PatchAt(s.st, s.st.recs[r.uid], PatchCommitVerified);
    }

    /** Finalize. Done means that the fence of r is gone from the UAMI. */
    method Finalize(r: Recovery, ghost del: bool, t: Ident) returns (outcome: CallOutcome)
      requires Stands(r, del, FinalizeGet(t)) && r.plan.Some?
      modifies cluster
      ensures cluster.Since(old(cluster.Sign())) && Left(r, del, outcome, PatchStatus(PatchComplete))
      ensures outcome.Done? ==> ExactFor(cluster.Stores(), r, t) && FenceIsGone(r)
    {
      hide Load;
      hide Read;
      hide ExactFor;
      hide FenceIsGone;
      hide Run;
      hide WorkerTraced;
      hide Init;
      var ok, uami := cluster.GetUami(r);
      if !ok {
        return Errored;
      }
      FinalizeGetAnswer(cluster.Stores(), r, del, t, cluster.answer);
      var stage := Load(cluster.uamiId, Req(r), t, r.plan, uami);
      if stage.None? || (stage.value != CommittedFenced && stage.value != Complete) {
        return BlockedCall;
      }
      outcome := ValidateCommittedCredential(r, del, FinalizeFics(t, stage.value, uami.value.tags), t);
      if outcome != Done {
        return;
      }
      if stage.value == CommittedFenced {
        outcome := ClearFence(r, del, t, uami.value.tags);
      }
      if outcome == Done {
        CompletedIsUnfenced(r, del);
      }
    }

    /** The writing half of Finalize, on the tags that were read. */
    method ClearFence(r: Recovery, ghost del: bool, t: Ident, existing: Tags) returns (outcome: CallOutcome)
      requires Stands(r, del, FinalizePut(t, existing)) && r.plan.Some?
      modifies cluster
      ensures cluster.Since(old(cluster.Sign())) && Left(r, del, outcome, PatchStatus(PatchComplete))
      ensures outcome.Done? ==> ExactFor(cluster.Stores(), r, t)
    {
      hide Write;
      hide AfterWrite;
      hide StageFor;
      hide ExactFor;
      hide Run;
      hide WorkerTraced;
      hide Init;
      var tags := existing;
      tags := tags - {RecoveryUid};
      tags := tags - {TargetUid};
      assert tags == WithoutFence(existing);
      hide WithoutFence;
      ghost var st;
      var ok;
      ok, st := cluster.UpdateRecoveryTags(r, tags);
      if !ok {
        return Errored;
      }
      outcome := VerifyRecoveryStage(r, del, FinalizeVerify(t), t, Complete);
      if outcome != Done {
        return;
      }
      outcome := ValidateCommittedCredential(r, del, FinalizeFicsAfter(t), t);
    }

    ghost predicate FenceIsGone(r: Recovery)
      reads cluster
    {
      r.target in cluster.local ==> cluster.uami.Some? ==> Fence(cluster.uami.value) != r.uid
    }

    lemma CompletedIsUnfenced(r: Recovery, del: bool)
      requires Stands(r, del, PatchStatus(PatchComplete))
      ensures FenceIsGone(r)
    {
      ValidIsSafe(cluster);
      hide Run;
      hide WorkerTraced;
      hide Init;
      var s := cluster.Now();
      assert PatchAt(s.st, s.st.recs[r.uid], PatchComplete);
    }

    // -------------------------------------------------------------- the ServiceAccount

    /** transferRecoveryServiceAccount: the account's UID once its ownership has been read back, or the
        empty UID when there is no account. */
    method TransferServiceAccount(r: Recovery, ghost del: bool, t: Ident) returns (outcome: CallOutcome, saUid: Uid)
      requires Stands(r, del, SaGet(t)) && r.plan.Some?
      modifies cluster
      ensures cluster.Since(old(cluster.Sign())) && Left(r, del, outcome, At.CommitRecovery(t, saUid))
      ensures outcome.Done? && saUid != "" ==>
                cluster.sa.Some? && cluster.sa.value.uid == saUid && FieldsMatch(t.uid, r.plan.value, cluster.sa.value)
    {
      hide Read;
      hide Write;
      hide AfterWrite;
      hide RecoverableSa;
      hide FieldsMatch;
      hide Run;
      hide WorkerTraced;
      hide Init;
      saUid := "";
      var ok, found := cluster.GetServiceAccount(r);
      if !ok {
        return Errored, saUid;
      }
      SaGetAnswer(cluster.Stores(), r, del, t, cluster.answer);
      if found.None? {
        return Done, saUid;
      }
      var original := found.value;
      if !RecoverableSa(r.source, t.uid, original) {
        return BlockedCall, saUid;
      }
      outcome := TransferFound(r, del, t, original);
      saUid := original.uid;
    }

    /** The patch of the account that was found, unless it has nothing to change, and the re-read. */
    method TransferFound(r: Recovery, ghost del: bool, t: Ident, original: Sa) returns (outcome: CallOutcome)
      requires r.plan.Some?
      requires Stands(r, del, if Transferred(t.uid, r.plan.value, original) == original then SaVerify(t, original.uid) else SaPut(t, original))
      modifies cluster
      ensures cluster.Since(old(cluster.Sign())) && Left(r, del, outcome, At.CommitRecovery(t, original.uid))
      ensures outcome.Done? ==>
                cluster.sa.Some? && cluster.sa.value.uid == original.uid && FieldsMatch(t.uid, r.plan.value, cluster.sa.value)
    {
      hide Read;
      hide Write;
      hide AfterWrite;
      hide FieldsMatch;
      hide Transferred;
      hide Run;
      hide WorkerTraced;
      hide Init;
      var labels, annotations := original.labels, original.annotations;
      labels := labels[UseLabel := TRUE_VALUE];
      labels := labels[ManagedByLabel := OPERATOR_NAME];
      labels := labels[OwnerLabel := t.uid];
      annotations := annotations[ClientIdAnnotation := r.plan.value.clientId];
      annotations := annotations[TenantIdAnnotation := r.plan.value.tenantId];
      var desired := original.(labels := labels, annotations := annotations);
      EditsAreTheTransfer(r.plan.value, t, original);
      if labels != original.labels || annotations != original.annotations {
        ghost var st;
        var ok;
        ok, st := cluster.PatchServiceAccount(r, original, desired);
        if !ok {
          return Errored;
        }
      }
      outcome := VerifyTransfer(r, del, t, original.uid);
    }

    /** The re-read that ends the transfer. */
    method VerifyTransfer(r: Recovery, ghost del: bool, t: Ident, expected: Uid) returns (outcome: CallOutcome)
      requires Stands(r, del, SaVerify(t, expected)) && r.plan.Some?
      modifies cluster
      ensures cluster.Since(old(cluster.Sign())) && Left(r, del, outcome, At.CommitRecovery(t, expected))
      ensures outcome.Done? ==>
                cluster.sa.Some? && cluster.sa.value.uid == expected && FieldsMatch(t.uid, r.plan.value, cluster.sa.value)
    {
      hide Read;
      hide FieldsMatch;
      hide Run;
      hide WorkerTraced;
      hide Init;
      var ok, found := cluster.GetServiceAccount(r);
      if !ok {
        return Errored;
      }
      SaVerifyAnswer(cluster.Stores(), r, del, t, expected, cluster.answer);
      if found.None? {
        return Errored;
      }
      outcome := if found.value.uid == expected && FieldsMatch(t.uid, r.plan.value, found.value) then Done else BlockedCall;
    }

    lemma EditsAreTheTransfer(plan: Plan, t: Ident, sa: Sa)
      ensures Transferred(t.uid, plan, sa) ==
                sa.(labels := sa.labels[UseLabel := TRUE_VALUE][ManagedByLabel := OPERATOR_NAME][OwnerLabel := t.uid],
                    annotations := sa.annotations[ClientIdAnnotation := plan.clientId][TenantIdAnnotation := plan.tenantId])
    {
      assert sa.labels + TransferLabels(t.uid) == sa.labels[UseLabel := TRUE_VALUE][ManagedByLabel := OPERATOR_NAME][OwnerLabel := t.uid];
      assert sa.annotations + TransferAnnotations(plan) == sa.annotations[ClientIdAnnotation := plan.clientId][TenantIdAnnotation := plan.tenantId];
    }

    /** verifyRecoveryServiceAccountForCommit. */
    method VerifyServiceAccountForCommit(r: Recovery, ghost del: bool, t: Ident, expected: Uid) returns (outcome: CallOutcome)
      requires Stands(r, del, CommitSa(t, expected)) && r.plan.Some?
      modifies cluster
      ensures cluster.Since(old(cluster.Sign())) && Left(r, del, outcome, CommitGet(t))
      ensures outcome.Done? ==>
                if expected == "" then cluster.sa.None?
                else cluster.sa.Some? && cluster.sa.value.uid == expected && FieldsMatch(t.uid, r.plan.value, cluster.sa.value)
    {
      hide Read;
      hide FieldsMatch;
      hide Run;
      hide WorkerTraced;
      hide Init;
      var ok, found := cluster.GetServiceAccount(r);
      if !ok {
        return Errored;
      }
      CommitSaAnswer(cluster.Stores(), r, del, t, expected, cluster.answer);
      if found.None? {
        return if expected == "" then Done else Errored;
      }
      if expected == "" {
        return BlockedCall;
      }
      outcome := if found.value.uid == expected && FieldsMatch(t.uid, r.plan.value, found.value) then Done else BlockedCall;
    }

    // -------------------------------------------------------------- the status

    /** block. */
    method Block(r: Recovery) returns (blocked: Recovery)
      requires Stands(r, cluster.worker.Busy? && cluster.worker.deletion, PatchStatus(PatchBlocked))
      modifies cluster
      ensures cluster.Since(old(cluster.Sign())) && Ended() && blocked == ApplyPatch(r, PatchBlocked)
    {
      hide Run;
      hide WorkerTraced;
      hide Init;
      hide Write;
      hide PatchConds;
      var ok;
      ghost var st;
      ok, blocked, st := cluster.PatchRecoveryStatus(r, PatchBlocked);
    }

    /** fail. */
    method Fail(r: Recovery) returns (failed: Recovery)
      requires Stands(r, cluster.worker.Busy? && cluster.worker.deletion, PatchStatus(PatchFailed))
      modifies cluster
      ensures cluster.Since(old(cluster.Sign())) && Ended() && failed == ApplyPatch(r, PatchFailed)
    {
      hide Run;
      hide WorkerTraced;
      hide Init;
      hide Write;
      hide PatchConds;
      var ok;
      ghost var st;
      ok, failed, st := cluster.PatchRecoveryStatus(r, PatchFailed);
    }

    /** block once mutation has started, fail before. */
    method Reject(r: Recovery, ghost del: bool) returns (rejected: Recovery)
      requires cluster.Valid() && cluster.Holds(r) && cluster.worker == Rejecting(r, del)
      modifies cluster
      ensures cluster.Since(old(cluster.Sign())) && Ended()
      ensures rejected == ApplyPatch(r, if r.started then PatchBlocked else PatchFailed)
    {
      if r.started {
        rejected := Block(r);
      } else {
        rejected := Fail(r);
      }
    }

    // -------------------------------------------------------------- the forward path

    /** How the forward path may end: with the record completed under deletion, or for good. */
    ghost predicate PathLeft(result: Recovery, del: bool, completed: bool)
      reads cluster
    {
      if del && completed then Stands(result, del, ReleaseCompleted(true)) else Ended()
    }

    /** preflightRecovery. A recorded plan names the UAMI and the issuer that were read. */
    method PreflightRecovery(r: Recovery, ghost del: bool, t: Ident)
      returns (result: Recovery, ghost plan: Plan, ghost issued: nat, ghost seen: nat)
      requires Stands(r, del, PreIssuer(t))
      requires !IsComplete(r)
      modifies cluster
      ensures cluster.Since(old(cluster.Sign())) && Ended() && !IsComplete(result)
      ensures result == r || result == ApplyPatch(r, PatchBlocked) ||
              (result == ApplyPatch(r, PatchPlan(plan)) && |old(cluster.log)| <= issued &&
               PlannedFrom(cluster.start, cluster.log, r, t, plan, issued, seen))
    {
      hide CondTrue;
      hide Read;
      hide Run;
      hide WorkerTraced;
      hide Init;
      hide PlannedAt;
      hide PlannedFrom;
      hide PatchConds;
      hide ApplyPatch;
      hide SameButDeleting;
      hide IsComplete;
      OnlyCompletionCompletes(r, PatchBlocked);
      result, plan, issued, seen := r, NO_PLAN, 0, 0;
      var ok, url := cluster.GetIssuer(r);
      if !ok {
        return;
      }
      PreflightAnswer(cluster.Stores(), r, del, PreIssuer(t), cluster.answer);
      if url.None? {
        result := Block(r);
        return;
      }
      ghost var log, c := cluster.log, cluster.answer;
      issued := |log| - 1;
      result, plan, seen := InspectAndRecord(r, del, t, url.value);
      if result == ApplyPatch(r, PatchPlan(plan)) && result != r && result != ApplyPatch(r, PatchBlocked) {
        PlannedOnAnswer(cluster.start, log, cluster.log, r, t, plan, c, seen);
      }
    }

    /** The preflight once the issuer is known. */
    method InspectAndRecord(r: Recovery, ghost del: bool, t: Ident, issuer: string)
      returns (result: Recovery, ghost planned: Plan, ghost seen: nat)
      requires Stands(r, del, PreUami(t, issuer)) && !IsComplete(r)
      modifies cluster
      ensures cluster.Since(old(cluster.Sign())) && Ended() && !IsComplete(result)
      ensures result == r || result == ApplyPatch(r, PatchBlocked) ||
              (result == ApplyPatch(r, PatchPlan(planned)) && |old(cluster.log)| <= seen &&
               PlannedAt(cluster.start, cluster.log, r, t, planned, issuer, seen))
    {
      hide CondTrue;
      hide Run;
      hide WorkerTraced;
      hide Init;
      hide PlannedAt;
      hide PatchConds;
      NothingCompletes(r);
      result := r;
      var outcome, plan;
      outcome, plan, seen := Inspect(r, del, t, issuer);
      planned := plan;
      ghost var log := cluster.log;
      if outcome == BlockedCall {
        result := Block(r);
      } else if outcome == Done {
        result := RecordPlan(r, del, t, plan);
        PlannedStays(cluster.start, log, cluster.log, r, t, plan, issuer, seen);
      }
    }

    /** The last checks of the preflight, and its status patch. */
    method RecordPlan(r: Recovery, ghost del: bool, t: Ident, plan: Plan) returns (result: Recovery)
      requires Stands(r, del, PreSa(t, plan)) && !IsComplete(r)
      modifies cluster
      ensures cluster.Since(old(cluster.Sign())) && Ended() && !IsComplete(result)
      ensures result == r || result == ApplyPatch(r, PatchBlocked) || result == ApplyPatch(r, PatchPlan(plan))
    {
      hide CondTrue;
      hide Run;
      hide WorkerTraced;
      hide Init;
      hide Write;
      hide RecoverableSa;
      hide PatchConds;
      NothingCompletes(r);
      result := r;
      var outcome := ValidateServiceAccount(r, del, t, plan);
      if outcome == BlockedCall {
        result := Block(r);
      } else if outcome == Done {
        var ok;
        ghost var st;
        ok, result, st := cluster.PatchRecoveryStatus(r, PatchPlan(plan));
      }
    }

    /** Inspect: the reads of the preflight on Azure. */
    method Inspect(r: Recovery, ghost del: bool, t: Ident, issuer: string) returns (outcome: CallOutcome, plan: Plan, ghost seen: nat)
      requires Stands(r, del, PreUami(t, issuer))
      modifies cluster
      ensures cluster.Since(old(cluster.Sign())) && Left(r, del, outcome, PreSa(t, plan))
      ensures outcome.Done? ==>
                |old(cluster.log)| <= seen && PlannedAt(cluster.start, cluster.log, r, t, plan, issuer, seen) &&
                RecoverableFics(cluster.uamiId, t, cluster.fics)
    {
      hide Read;
      hide Run;
      hide WorkerTraced;
      hide Init;
      hide RecoverableUami;
      hide RecoverableFics;
      hide RecoveryStage;
      hide PlannedAt;
      plan, seen := NO_PLAN, 0;
      var ok, uami := cluster.GetUami(r);
      if !ok {
        return Errored, plan, seen;
      }
      PreflightAnswer(cluster.Stores(), r, del, PreUami(t, issuer), cluster.answer);
      if uami.None? || !RecoverableUami(cluster.uamiId, t.key, uami.value) {
        return BlockedCall, plan, seen;
      }
      if RecoveryStage(Req(r), t.uid, uami.value).None? {
        return BlockedCall, plan, seen;
      }
      plan := PlanFor(uami.value, issuer, Subject(t));
      ghost var log := cluster.log;
      seen := |log|;
      PlannedNow(cluster.start, log, cluster.Now(), r, t, plan, issuer);
      outcome := InspectCredentials(r, del, t, plan);
      PlannedStays(cluster.start, log, cluster.log, r, t, plan, issuer, seen);
    }

    method InspectCredentials(r: Recovery, ghost del: bool, t: Ident, ghost plan: Plan) returns (outcome: CallOutcome)
      requires Stands(r, del, PreFics(t, plan))
      modifies cluster
      ensures cluster.Since(old(cluster.Sign())) && Left(r, del, outcome, PreSa(t, plan))
      ensures outcome.Done? ==> RecoverableFics(cluster.uamiId, t, cluster.fics)
    {
      hide Read;
      hide Run;
      hide WorkerTraced;
      hide Init;
      hide RecoverableFics;
      var ok, credentials := cluster.ListCredentials(r);
      if !ok {
        return Errored;
      }
      PreflightAnswer(cluster.Stores(), r, del, PreFics(t, plan), cluster.answer);
      outcome := if RecoverableFics(cluster.uamiId, t, credentials) then Done else BlockedCall;
    }

    /** validateRecoveryServiceAccount. */
    method ValidateServiceAccount(r: Recovery, ghost del: bool, t: Ident, ghost plan: Plan) returns (outcome: CallOutcome)
      requires Stands(r, del, PreSa(t, plan))
      modifies cluster
      ensures cluster.Since(old(cluster.Sign())) && Left(r, del, outcome, PatchStatus(PatchPlan(plan)))
      ensures outcome.Done? && cluster.sa.Some? ==> RecoverableSa(r.source, t.uid, cluster.sa.value)
    {
      hide Read;
      hide Run;
      hide WorkerTraced;
      hide Init;
      hide RecoverableSa;
      var ok, found := cluster.GetServiceAccount(r);
      if !ok {
        return Errored;
      }
      PreflightAnswer(cluster.Stores(), r, del, PreSa(t, plan), cluster.answer);
      outcome := if found.Some? && !RecoverableSa(r.source, t.uid, found.value) then BlockedCall else Done;
    }

    /** recoveryWinnerForSource over a fresh list: None when r itself wins. */
    method RecoveryWinner(r: Recovery, ghost del: bool, ghost at: At) returns (ok: bool, winner: Option<Recovery>)
      requires (at.ListForStart? || at.ListForCancel?) && Stands(r, del, at)
      modifies cluster
      ensures cluster.Since(old(cluster.Sign())) && (!ok ==> Ended())
      ensures ok ==> Stands(r, del,
                       if winner.None? then (if at.ListForStart? then LockTarget else ReleaseCancelled)
                       else if at.ListForStart? then PatchStatus(PatchFailed) else RemoveFinalizer)
      ensures ok ==> (winner.None? <==> Elected(cluster.recs, r.uid))
      ensures ok ==> |old(cluster.log)| < |cluster.log| && cluster.CalledLast(old(cluster.worker), cluster.Stores())
    {
      hide Read;
      hide Elected;
      hide Run;
      hide WorkerTraced;
      hide Init;
      hide Inv;
      winner := None;
      var list;
      ok, list := cluster.ListRecoveries(r);
      if !ok {
        return;
      }
      winner := Election.RecoveryWinnerForSource(list, r);
      ValidIsSafe(cluster);
      WinnerAnswer(cluster.Stores(), r, list, winner);
      ListAnswer(cluster.Stores(), r, del, at, cluster.answer);
    }

    /** startRecovery: only the winner locks the target and records that mutation has started. */
    method StartRecovery(r: Recovery, ghost del: bool) returns (result: Recovery, ghost listed: map<Uid, Recovery>)
      requires Stands(r, del, ListForStart)
      requires !IsComplete(r)
      modifies cluster
      ensures cluster.Since(old(cluster.Sign())) && Ended() && !IsComplete(result)
      ensures result == r ||
              (r.uid in listed && result == ApplyPatch(r, if Elected(listed, r.uid) then PatchStarted else PatchFailed))
    {
      hide CondTrue;
      hide Write;
      hide Elected;
      hide AfterWrite;
      hide Run;
      hide WorkerTraced;
      hide Init;
      hide PatchConds;
      OnlyCompletionCompletes(r, PatchFailed);
      OnlyCompletionCompletes(r, PatchStarted);
      result := r;
      listed := map[];
      var ok, winner := RecoveryWinner(r, del, ListForStart);
      if !ok {
        return;
      }
      listed := cluster.recs;
      if winner.Some? {
        result := Fail(r);
        return;
      }
      ghost var st;
      ok, st := cluster.PatchTargetRecoveryCondition(r, LOCK_FROM, ReasonRecoveryInProgress);
      if !ok {
        return;
      }
      ok, result, st := cluster.PatchRecoveryStatus(r, PatchStarted);
      if !ok {
        result := r;
      }
    }

    /** advanceRecovery: mark, repair the credential, transfer the account, then commit. */
    method AdvanceRecovery(r: Recovery, ghost del: bool, t: Ident) returns (result: Recovery)
      requires Stands(r, del, MarkGet(t)) && r.plan.Some?
      requires !IsComplete(r)
      modifies cluster
      ensures cluster.Since(old(cluster.Sign())) && Ended() && !IsComplete(result)
      ensures result.commitVerified ==> r.commitVerified || CommitRecorded(result)
    {
      hide PatchConds;
      hide CondTrue;
      hide StageFor;
      hide ExactFor;
      hide FieldsMatch;
      hide CommitRecorded;
      hide Run;
      hide WorkerTraced;
      hide Init;
      result := r;
      var outcome := MarkInProgress(r, del, t);
      if outcome == Done {
        outcome := EnsureFederatedIdentityCredential(r, del, t);
      }
      if outcome == Done {
        var saUid;
        outcome, saUid := TransferServiceAccount(r, del, t);
        if outcome == Done {
          result := CommitRecovery(r, del, t, saUid);
          return;
        }
      }
      if outcome == BlockedCall {
        result := Block(r);
        OnlyCompletionCompletes(r, PatchBlocked);
      }
    }

    /** commitRecovery: read everything again, commit, and record the verified commit. */
    method CommitRecovery(r: Recovery, ghost del: bool, t: Ident, saUid: Uid) returns (result: Recovery)
      requires Stands(r, del, At.CommitRecovery(t, saUid)) && r.plan.Some?
      requires !IsComplete(r)
      modifies cluster
      ensures cluster.Since(old(cluster.Sign())) && Ended() && !IsComplete(result)
      ensures result.commitVerified ==> r.commitVerified || CommitRecorded(result)
    {
      hide PatchConds;
      hide CondTrue;
      hide ExactFor;
      hide FieldsMatch;
      hide CommitRecorded;
      hide Run;
      hide WorkerTraced;
      hide Init;
      hide Read;
      hide Validate;
      result := r;
      var ok, current := cluster.GetRecovery(r);
      if !ok {
        return;
      }
      CommitRecoveryAnswer(cluster.Stores(), r, del, t, saUid, cluster.answer);
      result := CommitOnTarget(current, del, t, saUid);
    }

    /** commitRecovery on the recovery as it was read again. */
    method CommitOnTarget(r: Recovery, ghost del: bool, ghost t: Ident, saUid: Uid) returns (result: Recovery)
      requires Stands(r, del, CommitTarget(t, saUid)) && r.plan.Some? && !IsComplete(r)
      modifies cluster
      ensures cluster.Since(old(cluster.Sign())) && Ended() && !IsComplete(result)
      ensures result.commitVerified ==> r.commitVerified || CommitRecorded(result)
    {
      hide PatchConds;
      hide CondTrue;
      hide ExactFor;
      hide FieldsMatch;
      hide CommitRecorded;
      hide Run;
      hide WorkerTraced;
      hide Init;
      hide Read;
      hide Validate;
      OnlyCompletionCompletes(r, PatchBlocked);
      result := r;
      var ok, found := cluster.GetWorkloadIdentity(r, r.key);
      if !ok {
        return;
      }
      CommitTargetAnswer(cluster.Stores(), r, del, t, saUid, cluster.answer);
      if found.None? {
        return;
      }
      if Validate(r, found.value) != TargetOk {
        result := Block(r);
        return;
      }
      result := CommitAndRecord(r, del, found.value.id, saUid);
    }

    lemma CommitRecoveryAnswer(st: Store, r: Recovery, del: bool, t: Ident, saUid: Uid, c: Choice)
      requires Knows(st, r)
      ensures Read(st, r.uid, del, At.CommitRecovery(t, saUid), c) == Busy(r.uid, del, CommitTarget(t, saUid))
    {
    }

    /** The second half of commitRecovery. */
    method CommitAndRecord(r: Recovery, ghost del: bool, t: Ident, saUid: Uid) returns (result: Recovery)
      requires Stands(r, del, CommitSa(t, saUid)) && r.plan.Some?
      requires !IsComplete(r)
      modifies cluster
      ensures cluster.Since(old(cluster.Sign())) && Ended() && !IsComplete(result)
      ensures result.commitVerified ==> r.commitVerified || CommitRecorded(result)
    {
      hide CondTrue;
      hide ExactFor;
      hide FieldsMatch;
      hide Run;
      hide WorkerTraced;
      hide Init;
      hide Write;
      hide PatchConds;
      result := r;
      var outcome := VerifyServiceAccountForCommit(r, del, t, saUid);
      if outcome == Done {
        outcome := Commit(r, del, t);
      }
      if outcome == BlockedCall {
        result := Block(r);
        OnlyCompletionCompletes(r, PatchBlocked);
      } else if outcome == Done {
        result := RecordCommitVerified(r);
      }
    }

    /** The record of r is commit-verified, the source has lost the UAMI and the target is locked. */
    ghost predicate CommitRecorded(r: Recovery)
      reads cluster
    {
      cluster.Valid() && r.uid in cluster.recs && cluster.recs[r.uid].commitVerified &&
      (r.target in cluster.local ==>
         (cluster.uami.Some? ==> Owner(cluster.uami.value) != r.source) &&
         (!IsComplete(cluster.recs[r.uid]) ==> LockHeld(cluster.Stores(), r)))
    }

    /** recordRecoveryCommitVerified. */
    method RecordCommitVerified(r: Recovery) returns (result: Recovery)
      requires Stands(r, cluster.worker.Busy? && cluster.worker.deletion, PatchStatus(PatchCommitVerified))
      requires !IsComplete(r)
      modifies cluster
      ensures cluster.Since(old(cluster.Sign())) && Ended() && !IsComplete(result)
      ensures result == r || (result == ApplyPatch(r, PatchCommitVerified) && CommitRecorded(result))
    {
      hide CondTrue;
      hide Run;
      hide WorkerTraced;
      hide Init;
      hide Write;
      hide PatchConds;
      hide CommitRecorded;
      NothingCompletes(r);
      result := r;
      var ok, patched;
      ghost var st;
      ok, patched, st := cluster.PatchRecoveryStatus(r, PatchCommitVerified);
      if ok {
        result := patched;
        VerifiedIsRecorded(patched);
      }
    }

    lemma VerifiedIsRecorded(r: Recovery)
      requires cluster.Valid() && cluster.Holds(r) && r.commitVerified
      ensures CommitRecorded(r)
    {
      ReachableIsKept(cluster.start, cluster.log);
      hide Run;
      hide WorkerTraced;
      hide Init;
      if r.target in cluster.local {
        KeptCommit(cluster.Now(), r);
      }
    }

    lemma KeptCommit(s: State, r: Recovery)
      requires Kept(s) && Knows(s.st, r) && r.commitVerified && r.target in s.st.local
      ensures s.st.uami.Some? ==> Owner(s.st.uami.value) != r.source
      ensures !IsComplete(s.st.recs[r.uid]) ==> LockHeld(s.st, r)
    {
      hide Inv;
      assert s.st.recs[r.uid].commitVerified;
    }

    /** finalizeRecovery. */
    method FinalizeRecovery(r: Recovery, ghost del: bool, t: Ident) returns (result: Recovery)
      requires Stands(r, del, FinalizeGet(t)) && r.plan.Some? && !IsComplete(r)
      modifies cluster
      ensures cluster.Since(old(cluster.Sign())) && PathLeft(result, del, IsComplete(result))
    {
      hide ExactFor;
      hide FenceIsGone;
      hide Run;
      hide WorkerTraced;
      hide Init;
      hide Write;
      hide PatchConds;
      result := r;
      var outcome := Finalize(r, del, t);
      if outcome == BlockedCall {
        result := Block(r);
        OnlyCompletionCompletes(r, PatchBlocked);
      } else if outcome == Done {
        var ok, patched;
        ghost var st;
        ok, patched, st := cluster.PatchRecoveryStatus(r, PatchComplete);
        OnlyCompletionCompletes(r, PatchComplete);
        if ok {
          result := patched;
        }
      }
    }

    lemma NothingCompletes(r: Recovery)
      requires !IsComplete(r)
      ensures forall patch :: patch != PatchComplete ==> !IsComplete(ApplyPatch(r, patch))
    {
    }

    lemma OnlyCompletionCompletes(r: Recovery, patch: StatusPatch)
      requires !IsComplete(r)
      ensures IsComplete(ApplyPatch(r, patch)) <==> patch == PatchComplete
    {
    }

    /** reconcileForward. Undisturbed, the run grows by its calls alone, the state is what they compute,
        and for a recovery that nobody deletes one more checkpoint is taken. */
    method ReconcileForward(r: Recovery, ghost del: bool) returns (result: Recovery)
      requires Stands(r, del, ReadTarget) && !IsComplete(r)
      modifies cluster
      ensures cluster.Since(old(cluster.Sign())) && PathLeft(result, del, IsComplete(result))
      ensures cluster.trace.Quiet? ==>
                Onward(cluster.answer, old(cluster.Now()), old(cluster.log), cluster.Now(), cluster.log)
      ensures cluster.trace.Quiet? && !del && Busy(r.uid, del, ReadTarget) == Enter(old(cluster.recs)[r.uid], cluster.answer.configured) ==>
                CheckpointTaken(old(cluster.Stores()), r.uid, cluster.answer, cluster.Stores())
    {
      hide Run;
      hide WorkerTraced;
      hide Init;
      hide CheckpointTaken;
      hide Onward;
      hide CondTrue;
      hide PathLeft;
      ghost var s, log := cluster.Now(), cluster.log;
      result := ForwardCalls(r, del);
      PathIsValid(result, del);
      if cluster.trace.Quiet? {
        QuietOnward(cluster.trace, cluster.answer, s, log, cluster.Now(), cluster.log);
        if !del && s.worker == Enter(s.st.recs[r.uid], cluster.answer.configured) {
          ForwardServes(r.uid, s, log);
        }
      }
    }

    lemma PathIsValid(result: Recovery, del: bool)
      requires PathLeft(result, del, IsComplete(result))
      ensures cluster.Valid() && (!del ==> Ended())
    {
      hide WorkerTraced;
      hide CondTrue;
    }

    lemma ForwardServes(u: Uid, s: State, log: seq<Action>)
      requires cluster.Valid() && s == Run(cluster.start, log) && u in s.st.recs && cluster.worker.Idle?
      requires Onward(cluster.answer, s, log, cluster.Now(), cluster.log)
      requires s.worker == Enter(s.st.recs[u], cluster.answer.configured)
      ensures CheckpointTaken(s.st, u, cluster.answer, cluster.Stores())
    {
      hide Run;
      hide WorkerTraced;
      hide Init;
      hide Calls;
      hide Enter;
      hide CheckpointTaken;
      hide DeletionServed;
      ReconcileServes(cluster.start, log, s, u, cluster.answer, |cluster.log| - |log|, cluster.Now());
    }

    /** The calls of reconcileForward. */
    method ForwardCalls(r: Recovery, ghost del: bool) returns (result: Recovery)
      requires Stands(r, del, ReadTarget) && !IsComplete(r)
      modifies cluster
      ensures cluster.Since(old(cluster.Sign())) && PathLeft(result, del, IsComplete(result))
    {
      hide Read;
      hide Run;
      hide WorkerTraced;
      hide Init;
      hide Validate;
      hide CondTrue;
      hide PatchConds;
      hide CommitRecorded;
      result := r;
      var ok, found := cluster.GetWorkloadIdentity(r, r.key);
      if !ok {
        return;
      }
      ReadTargetAnswer(cluster.Stores(), r, del, cluster.answer);
      var here := cluster.IsLocal(r.target);
      if !here {
        result := ReconcileElsewhere(r, del);
      } else if found.None? || Validate(r, found.value) != TargetOk {
        result := Reject(r, del);
        OnlyCompletionCompletes(r, if r.started then PatchBlocked else PatchFailed);
      } else {
        result := TakeNextStep(r, del, found.value.id);
      }
    }

    /** The branch of reconcileForward on the persisted checkpoints. */
    method TakeNextStep(r: Recovery, ghost del: bool, t: Ident) returns (result: Recovery)
      requires cluster.Valid() && cluster.Holds(r) && cluster.worker == Forward(r, del, t) && !IsComplete(r)
      modifies cluster
      ensures cluster.Since(old(cluster.Sign())) && PathLeft(result, del, IsComplete(result))
    {
      hide Run;
      hide WorkerTraced;
      hide Init;
      hide CondTrue;
      hide PatchConds;
      hide CommitRecorded;
      if r.commitVerified {
        if r.plan.None? {
          result := Block(r);
          OnlyCompletionCompletes(r, PatchBlocked);
          return;
        }
        result := FinalizeRecovery(r, del, t);
        return;
      }
      if r.plan.None? {
        if r.started {
          result := Block(r);
          OnlyCompletionCompletes(r, PatchBlocked);
          return;
        }
        ghost var plan, issued, seen;
        result, plan, issued, seen := PreflightRecovery(r, del, t);
      } else if !r.started {
        ghost var listed;
        result, listed := StartRecovery(r, del);
      } else {
        result := AdvanceRecovery(r, del, t);
      }
    }

    /** A target under another UAMI name: the same decisions on what was found there. */
    method ReconcileElsewhere(r: Recovery, ghost del: bool) returns (result: Recovery)
      requires Stands(r, del, Elsewhere) && !IsComplete(r)
      modifies cluster
      ensures cluster.Since(old(cluster.Sign())) && PathLeft(result, del, IsComplete(result))
    {
      hide Read;
      hide Run;
      hide WorkerTraced;
      hide Init;
      hide CondTrue;
      hide PatchConds;
      NothingCompletes(r);
      result := r;
      var ok, outcome := cluster.ActElsewhere(r);
      if !ok {
        return;
      }
      ElsewhereAnswer(cluster.Stores(), r, del, cluster.answer);
      match outcome
      case OutcomeInvalid => result := Reject(r, del);
      case OutcomeBlocked => result := Block(r);
      case OutcomeAdvance(plan) => result := RecordElsewhere(r, del, plan);
    }

    method RecordElsewhere(r: Recovery, ghost del: bool, plan: Plan) returns (result: Recovery)
      requires cluster.Valid() && cluster.Holds(r) &&
               cluster.worker == AfterElsewhere(r, del, OutcomeAdvance(plan)) && !IsComplete(r)
      modifies cluster
      ensures cluster.Since(old(cluster.Sign())) && PathLeft(result, del, IsComplete(result))
    {
      hide Run;
      hide WorkerTraced;
      hide Init;
      hide Write;
      hide CondTrue;
      hide PatchConds;
      NothingCompletes(r);
      var ok, patched;
      ghost var st;
      result := r;
      if r.commitVerified {
        OnlyCompletionCompletes(r, PatchComplete);
        ok, patched, st := cluster.PatchRecoveryStatus(r, PatchComplete);
        if ok {
          result := patched;
        }
      } else if r.plan.None? {
        if r.started {
          result := Block(r);
        } else {
          ok, patched, st := cluster.PatchRecoveryStatus(r, PatchPlan(plan));
        }
      } else if !r.started {
        ghost var listed;
        result, listed := StartRecovery(r, del);
      } else {
        ok, patched, st := cluster.PatchRecoveryStatus(r, PatchCommitVerified);
      }
    }

    // -------------------------------------------------------------- deletion

    /** releaseCompletedTarget and removeRecoveryFinalizer. */
    method ReleaseAndRemove(r: Recovery) returns (removed: bool, ghost k: nat)
      requires Stands(r, true, ReleaseCompleted(true)) && IsComplete(r)
      modifies cluster
      ensures cluster.Since(old(cluster.Sign())) && Ended() && (removed ==> r.uid !in cluster.recs)
      ensures removed ==>
                |old(cluster.log)| <= k && ReleasedAt(cluster.start, cluster.log, r.uid, ReleaseCompleted(true), k)
    {
      hide Run;
      hide WorkerTraced;
      hide Init;
      hide Write;
      hide AfterWrite;
      hide CondTrue;
      hide MayGo;
      ghost var st;
      removed, st := cluster.PatchTargetRecoveryCondition(r, RELEASE_FROM, ReasonRecoveryCompleted);
      k := |cluster.log| - 1;
      if removed {
        ghost var log := cluster.log;
        assert ReleasedAt(cluster.start, log, r.uid, ReleaseCompleted(true), k);
        removed := cluster.RemoveRecoveryFinalizer(r);
        ReleasedStays(cluster.start, log, cluster.log, r.uid, ReleaseCompleted(true), k);
      }
    }

    lemma ReleasedStays(start: State, log: seq<Action>, later: seq<Action>, u: Uid, at: At, k: nat)
      requires ReleasedAt(start, log, u, at, k) && log <= later
      ensures ReleasedAt(start, later, u, at, k)
    {
      hide Run;
      assert later[..k] == log[..k];
    }

    /** reconcileDelete: cancel what has not started, finish what has. A record only goes away after its
        target was released, or when another recovery of the source holds on to it. */
    method ReconcileDelete(r: Recovery) returns (removed: bool, ghost k: nat)
      requires cluster.Valid() && r.deleting && cluster.worker == Enter(r, configured) && (r.finalizer ==> cluster.Holds(r))
      modifies cluster
      ensures cluster.Since(old(cluster.Sign())) && Ended()
      ensures removed ==> r.uid !in cluster.recs && |old(cluster.log)| <= k && MayGo(cluster.start, cluster.log, r, k)
      ensures cluster.trace.Quiet? ==>
                Onward(cluster.answer, old(cluster.Now()), old(cluster.log), cluster.Now(), cluster.log)
      ensures cluster.trace.Quiet? && cluster.answer.configured == configured &&
              r.uid in old(cluster.recs) && old(cluster.recs)[r.uid] == r ==>
                DeletionServed(old(cluster.Stores()), r.uid, cluster.answer, cluster.Stores())
    {
      hide Run;
      hide WorkerTraced;
      hide Init;
      hide Onward;
      hide MayGo;
      hide DeletionServed;
      hide Enter;
      ghost var s, log := cluster.Now(), cluster.log;
      removed, k := DeleteCalls(r);
      if cluster.trace.Quiet? {
        QuietOnward(cluster.trace, cluster.answer, s, log, cluster.Now(), cluster.log);
        if r.uid in s.st.recs && s.st.recs[r.uid] == r && cluster.answer.configured == configured {
          DeleteServes(r.uid, s, log);
        }
      }
    }

    lemma DeleteServes(u: Uid, s: State, log: seq<Action>)
      requires cluster.Valid() && s == Run(cluster.start, log) && u in s.st.recs && cluster.worker.Idle?
      requires Onward(cluster.answer, s, log, cluster.Now(), cluster.log)
      requires s.worker == Enter(s.st.recs[u], cluster.answer.configured)
      ensures DeletionServed(s.st, u, cluster.answer, cluster.Stores())
    {
      hide Run;
      hide WorkerTraced;
      hide Init;
      hide Calls;
      hide Enter;
      hide CheckpointTaken;
      hide DeletionServed;
      ReconcileServes(cluster.start, log, s, u, cluster.answer, |cluster.log| - |log|, cluster.Now());
    }

    /** The calls of reconcileDelete. */
    method DeleteCalls(r: Recovery) returns (removed: bool, ghost k: nat)
      requires cluster.Valid() && r.deleting && cluster.worker == Enter(r, configured) && (r.finalizer ==> cluster.Holds(r))
      modifies cluster
      ensures cluster.Since(old(cluster.Sign())) && Ended()
      ensures removed ==> r.uid !in cluster.recs && |old(cluster.log)| <= k && MayGo(cluster.start, cluster.log, r, k)
    {
      hide Run;
      hide WorkerTraced;
      hide Init;
      hide CondTrue;
      hide PatchConds;
      hide ReleasedAt;
      hide LostAt;
      removed, k := false, 0;
      if !r.finalizer {
        return;
      }
      if !r.started {
        removed, k := CancelRecovery(r);
        return;
      }
      if IsComplete(r) {
        removed, k := ReleaseAndRemove(r);
        return;
      }
      if !configured {
        var blocked := Block(r);
        return;
      }
      var result := ReconcileForward(r, true);
      if IsComplete(result) {
        removed, k := ReleaseAndRemove(result);
        removed := removed && result.uid == r.uid;
      }
    }

    /** The deletion of a recovery that has not started. */
    method CancelRecovery(r: Recovery) returns (removed: bool, ghost k: nat)
      requires Stands(r, true, ListForCancel) && !r.started
      modifies cluster
      ensures cluster.Since(old(cluster.Sign())) && Ended() && (removed ==> r.uid !in cluster.recs)
      ensures removed ==> |old(cluster.log)| <= k && MayGo(cluster.start, cluster.log, r, k)
    {
      hide Run;
      hide WorkerTraced;
      hide Init;
      hide Write;
      hide AfterWrite;
      hide Elected;
      k := 0;
      var ok, winner;
      ok, winner := RecoveryWinner(r, true, ListForCancel);
      if !ok {
        return false, k;
      }
      k := |cluster.log| - 1;
      if winner.None? {
        ghost var st;
        ok, st := cluster.PatchTargetRecoveryCondition(r, RELEASE_FROM, ReasonRecoveryCancelled);
        if !ok {
          return false, k;
        }
        k := |cluster.log| - 1;
        assert ReleasedAt(cluster.start, cluster.log, r.uid, ReleaseCancelled, k);
      } else {
        assert LostAt(cluster.start, cluster.log, r.uid, k);
      }
      ghost var log := cluster.log;
      removed := cluster.RemoveRecoveryFinalizer(r);
      MayGoStays(cluster.start, log, cluster.log, r, k);
    }

    // -------------------------------------------------------------- Reconcile

    /** One reconcile of recovery u. Whatever it did and wherever it stopped, no recovery's status moved
        back meanwhile. If nobody interfered and no call failed, the run grew by the reconcile's own
        calls alone and the stores are what they compute: in a recoverable environment exactly one
        more checkpoint has been taken, and a deleted recovery has been served. */
    method Reconcile(u: Uid)
      requires cluster.Reached() && cluster.worker.Idle?
      modifies cluster
      ensures Ended() && old(cluster.log) <= cluster.log && (cluster.trace.Quiet? ==> cluster.answer.configured == configured)
      ensures forall v | v in old(cluster.recs) && v in cluster.recs :: MovesForward(old(cluster.recs)[v], cluster.recs[v])
      ensures cluster.trace.Quiet? && u in old(cluster.recs) ==>
                Undisturbed(u, old(cluster.Now()), old(cluster.log), cluster.Now(), cluster.log, cluster.answer)
      ensures cluster.trace.Quiet? ==>
                CheckpointTaken(old(cluster.Stores()), u, cluster.answer, cluster.Stores()) &&
                DeletionServed(old(cluster.Stores()), u, cluster.answer, cluster.Stores())
    {
      hide Run;
      hide Init;
      hide MovesForward;
      hide CheckpointTaken;
      hide DeletionServed;
      hide WorkerTraced;
      hide Undisturbed;
      ghost var before, log := cluster.Now(), cluster.log;
      cluster.Watch(configured);
      ReconcileCalls(u);
      LaterRun(cluster.start, log, cluster.log, before, cluster.Now());
      if cluster.trace.Quiet? {
        UndisturbedServes(cluster.start, u, before, log, cluster.Now(), cluster.log, cluster.answer);
      }
    }

    /** The run grew by WorkerBegin and WorkerCall actions alone, and the final stores are those of the
        reconcile the protocol computes. */
    ghost predicate Undisturbed(u: Uid, before: State, log: seq<Action>, after: State, later: seq<Action>, c: Choice)
      requires u in before.st.recs
    {
      after.worker.Idle? &&
      Onward(c, before.(worker := Enter(before.st.recs[u], c.configured)), log + [WorkerBegin(u, c)], after, later)
    }

    lemma UndisturbedServes(start: State, u: Uid, before: State, log: seq<Action>, after: State, later: seq<Action>, c: Choice)
      requires Init(start) && before == Run(start, log)
      requires u in before.st.recs ==> Undisturbed(u, before, log, after, later, c)
      ensures CheckpointTaken(before.st, u, c, after.st) && DeletionServed(before.st, u, c, after.st)
    {
      if u in before.st.recs {
        hide Run;
        hide Init;
        hide Calls;
        hide Enter;
        hide CheckpointTaken;
        hide DeletionServed;
        ReconcileServes(start, log, before, u, c, |later| - |log| - 1, after);
      } else {
        hide Environment;
        hide Finishing;
      }
    }

    lemma LaterRun(start: State, log: seq<Action>, later: seq<Action>, s: State, s': State)
      requires Init(start) && log <= later && s == Run(start, log) && s' == Run(start, later)
      ensures forall v | v in s.st.recs && v in s'.st.recs :: MovesForward(s.st.recs[v], s'.st.recs[v])
    {
      ReachableIsSafe(start, log);
      hide Init;
      hide MovesForward;
      var more := later[|log|..];
      assert later == log + more;
      RunAppend(start, log, more);
      hide Run;
      hide Inv;
      forall v | v in s.st.recs && v in s'.st.recs
        ensures MovesForward(s.st.recs[v], s'.st.recs[v])
      {
        StatusNeverReverts(s, more, v);
      }
    }

    /** A quiet trace from the first read to rest is an undisturbed reconcile. */
    lemma QuietReconcile(u: Uid, before: State, log: seq<Action>)
      requires Ended() && cluster.trace.Quiet? && u in before.st.recs
      requires cluster.trace == Quiet(before.(worker := Enter(before.st.recs[u], cluster.answer.configured)), |log| + 1)
      requires log + [WorkerBegin(u, cluster.answer)] <= cluster.log
      ensures Undisturbed(u, before, log, cluster.Now(), cluster.log, cluster.answer)
    {
      hide Run;
      hide Init;
      hide Enter;
      hide Calls;
    }

    /** The calls of Reconcile. */
    method ReconcileCalls(u: Uid)
      requires Ended() && cluster.trace == Quiet(cluster.Now(), |cluster.log|) && cluster.answer.configured == configured
      modifies cluster
      ensures Ended() && old(cluster.log) <= cluster.log && (cluster.trace.Quiet? ==> cluster.answer.configured == configured)
      ensures cluster.trace.Quiet? && u in old(cluster.recs) ==>
                Undisturbed(u, old(cluster.Now()), old(cluster.log), cluster.Now(), cluster.log, cluster.answer)
    {
      hide Run;
      hide Init;
      hide WorkerTraced;
      hide Enter;
      hide Undisturbed;
      ghost var before, log := cluster.Now(), cluster.log;
      var found := cluster.GetRecoveryByName(u);
      if found.Some? {
        ReconcileFound(found.value);
      }
      if cluster.trace.Quiet? && u in before.st.recs {
        QuietReconcile(u, before, log);
      }
    }

    /** Reconcile on the recovery that was read. */
    method ReconcileFound(r: Recovery)
      requires cluster.Valid() && cluster.worker == Enter(r, configured) && cluster.answer.configured == configured
      requires r.uid in cluster.recs && cluster.recs[r.uid] == r && (r.finalizer ==> cluster.Holds(r))
      modifies cluster
      ensures Ended() && cluster.Since(old(cluster.Sign()))
    {
      hide Run;
      hide Init;
      hide WorkerTraced;
      hide CondTrue;
      hide Write;
      hide AfterWrite;
      if r.deleting {
        ghost var k;
        var removed;
        removed, k := ReconcileDelete(r);
        return;
      }
      if !r.finalizer {
        var ok := cluster.AddRecoveryFinalizer(r.uid);
        return;
      }
      if IsComplete(r) {
        var ok;
        ghost var st;
        ok, st := cluster.PatchTargetRecoveryCondition(r, RELEASE_FROM, ReasonRecoveryCompleted);
        return;
      }
      if IsFailed(r) {
        return;
      }
      if !configured {
        var blocked := Block(r);
        return;
      }
      var result := ReconcileForward(r, false);
    }
  }
}
