/** What a recovery does to the two Kubernetes objects of its target, from the fields it has read and those it
    writes, in every run: the target it starts from and patches, and the account it takes over. */
module Vetting {
  import opened OwnershipTags
  import opened Azure
  import opened Resources
  import opened Target
  import opened ServiceAccounts
  import opened Protocol
  import opened Invariant
  import opened Safety
  import opened Origin

  // ---------------------------------------------------------------- the target

  /** A reconcile goes on from the read of its target exactly when the object under the referenced name waits
      for this recovery; otherwise it fails for good before mutation, and blocks after. */
  lemma TargetReadDecides(s0: State, run: seq<Action>, c: Choice)
    requires Init(s0)
    requires var s := Run(s0, run); s.worker.Busy? && s.worker.at == ReadTarget && s.worker.u in s.st.recs && s.st.recs[s.worker.u].target in s.st.local
    ensures var s, w' := Run(s0, run), Apply(Run(s0, run), WorkerCall(c)).worker;
            var r := s.st.recs[s.worker.u];
            w'.Busy? && w'.u == s.worker.u &&
            (!w'.at.PatchStatus? <==> s.st.wi.Some? && s.st.wi.value.id.key == r.key && Awaits(s.st.wi.value, r)) &&
            (w'.at.PatchStatus? ==> w'.at.patch == if r.started then PatchBlocked else PatchFailed)
  {
    ReachableIsSafe(s0, run);
    hide Run;
    hide Init;
    var s := Run(s0, run);
    assert RecoveryOk(s.st.recs[s.worker.u]) && s.st.recs[s.worker.u].uid == s.worker.u;
    hide Inv;
    hide CondsOk;
    if s.st.wi.Some? {
      ValidateIsExact(s.st.recs[s.worker.u], s.st.wi.value);
    }
    hide Validate;
    hide Awaits;
  }

  /** The reason a lock or release writes, and those it replaces. */
  function Written(at: At): Option<Reason> {
    match at
    case LockTarget => Some(ReasonRecoveryInProgress)
    case ReleaseCompleted(_) => Some(ReasonRecoveryCompleted)
    case ReleaseCancelled => Some(ReasonRecoveryCancelled)
    case _ => None
  }

  predicate Replaces(at: At, reason: Reason) {
    reason == ReasonRecoveryInProgress || (at.LockTarget? && reason == ReasonRecoveryRequired)
  }

  /** The object under the referenced name is the recovery's own target, with its evidence, in a state that
      the call at `at` replaces. */
  predicate Patches(at: At, r: Recovery, w: Wi) {
    Written(at).Some? && w.id.key == r.key && w.id.uid == r.target && w.evidence == Some(r.source) &&
    w.ready.Some? && w.ready.value.status == StatusFalse && Replaces(at, w.ready.value.reason)
  }

  /** In every state the worker changes nothing of a WorkloadIdentity but the Ready condition of its own
      target, and that at a lock or a release, whenever the target is in a state to be patched. */
  lemma TargetIsPatchedExactly(s: State, c: Choice)
    ensures StepWorker(s, c).st.wi != s.st.wi ==>
              s.st.wi.Some? && s.worker.Busy? && s.worker.u in s.st.recs && Patches(s.worker.at, s.st.recs[s.worker.u], s.st.wi.value)
    ensures s.st.wi.Some? && s.worker.Busy? && s.worker.u in s.st.recs && Patches(s.worker.at, s.st.recs[s.worker.u], s.st.wi.value) ==>
              var w, w' := s.st.wi.value, StepWorker(s, c).st.wi;
              w'.Some? && w'.value == w.(ready := w'.value.ready, version := w'.value.version) &&
              w'.value.ready == Some(Ready(StatusFalse, Written(s.worker.at).value, w.gen)) &&
              (w'.value.ready != w.ready ==> w'.value.version == s.st.clock)
  {
    hide Read;
    hide AfterWrite;
    hide Transferred;
    hide Upsert;
    hide PatchConds;
    hide MergeTags;
    hide WithoutFence;
  }

  // ---------------------------------------------------------------- the account

  /** A call of the normal reconciler leaves the account, removes it or stamps it with a fresh version. */
  lemma NormalStampsAccount(s: State, c: Choice)
    ensures var st' := StepNormal(s, c).st;
            st'.recs == s.st.recs && s.st.clock <= st'.clock &&
            (st'.sa == s.st.sa || st'.sa.None? || (st'.sa.value.version == s.st.clock && s.st.clock < st'.clock))
  {
    hide NormalRead;
    hide AfterNormalWrite;
    hide ApplyWiPatch;
    hide Upsert;
  }

  /** The copy that is about to be written back is the stored account, or one that will not land. */
  lemma CopyIsKept(s: State, a: Action)
    requires Inv(s) && WorkerOrigin(s.st, s.worker)
    ensures WorkerOrigin(Apply(s, a).st, Apply(s, a).worker)
  {
    hide RecoverableSa;
    match a
    case WorkerCall(c) => WorkerKeepsCopy(s, c); hide StepWorker; hide Inv;
    case NormalCall(c) => NormalStampsAccount(s, c); NormalLeavesWorker(s, c); hide StepNormal; hide Inv;
    case EditServiceAccount(_) => hide Inv;
    case _ => UsersSpare(s, a); KnownRecords(s); hide Apply; hide Inv;
  }

  lemma NormalLeavesWorker(s: State, c: Choice)
    ensures StepNormal(s, c).worker == s.worker
  {
    hide NormalRead;
    hide NormalWrite;
    hide AfterNormalWrite;
  }

  lemma WorkerKeepsCopy(s: State, c: Choice)
    requires Inv(s) && WorkerOrigin(s.st, s.worker)
    ensures WorkerOrigin(StepWorker(s, c).st, StepWorker(s, c).worker)
  {
    hide RecoverableSa;
    if s.worker.Busy? && s.worker.u in s.st.recs {
      var Busy(u, del, at) := s.worker;
      RecordFactsOf(s, u);
      hide Inv;
      if IsWrite(at) {
        NoTransferAfterWrite(s.st, u, del, at);
      } else if Read(s.st, u, del, at, c).Busy? && Read(s.st, u, del, at, c).at.SaPut? {
        OnlySaGetLeadsToSaPut(s.st, u, del, at, c);
      }
    }
    hide Inv;
    hide Read;
    hide Write;
    hide AfterWrite;
  }

  lemma {:induction false} CopiesAreKept(s0: State, run: seq<Action>)
    requires Init(s0)
    ensures WorkerOrigin(Run(s0, run).st, Run(s0, run).worker)
    decreases |run|
  {
    hide Apply;
    hide Inv;
    hide CopyOrigin;
    if run != [] {
      CopiesAreKept(s0, run[..|run| - 1]);
      ReachableIsSafe(s0, run[..|run| - 1]);
      CopyIsKept(Run(s0, run[..|run| - 1]), run[|run| - 1]);
    }
  }

  /** An account a recovery may take over: the source's, with the operator's mark; nobody's, without any mark
      or identity; or one that is the target's already. */
  predicate Takeable(sa: Sa, source: Uid, target: Uid) {
    (Label(sa, OwnerLabel) == source && Label(sa, ManagedByLabel) == "azure-workload-identity-operator") ||
    (Label(sa, OwnerLabel) == "" && Label(sa, ManagedByLabel) == "" && Label(sa, CreatedByLabel) == "" &&
     Annotation(sa, ClientIdAnnotation) == "" && Annotation(sa, TenantIdAnnotation) == "") ||
    Label(sa, OwnerLabel) == target
  }

  /** The account is the target's and names the planned identity. */
  predicate Taken(sa: Sa, target: Uid, plan: Plan) {
    Label(sa, UseLabel) == "true" && Label(sa, ManagedByLabel) == "azure-workload-identity-operator" && Label(sa, OwnerLabel) == target &&
    Annotation(sa, ClientIdAnnotation) == plan.clientId && Annotation(sa, TenantIdAnnotation) == plan.tenantId
  }

  /** Everything else on the account, the created-by label among it, is as before. */
  ghost predicate OnlyTaken(before: Sa, after: Sa) {
    after.uid == before.uid &&
    (forall k: LabelKey :: k != UseLabel && k != ManagedByLabel && k != OwnerLabel ==> Label(after, k) == Label(before, k)) &&
    (forall k: AnnotationKey :: k.OtherAnnotation? ==> Annotation(after, k) == Annotation(before, k))
  }

  lemma TransferMeans(source: Uid, target: Uid, plan: Plan, sa: Sa, version: nat)
    requires RecoverableSa(source, target, sa) && source != ""
    ensures Takeable(sa, source, target)
    ensures var sa' := Transferred(target, plan, sa).(version := version); Taken(sa', target, plan) && OnlyTaken(sa, sa')
  {
  }

  /** In every run a recovery changes the account only from one it may take over, and only to the target with
      the planned identity; the lock and the plan are there. */
  lemma TransferIsExact(s0: State, run: seq<Action>, c: Choice)
    requires Init(s0)
    requires var s := Run(s0, run); Apply(s, WorkerCall(c)).st.sa != s.st.sa
    ensures var s := Run(s0, run); s.worker.Busy? && s.worker.at.SaPut? && s.worker.u in s.st.recs && s.st.recs[s.worker.u].plan.Some?
    ensures var s, s' := Run(s0, run), Apply(Run(s0, run), WorkerCall(c));
            var r := s.st.recs[s.worker.u];
            r.started && LockHeld(s.st, r) && s.st.sa.Some? && s'.st.sa.Some? && Takeable(s.st.sa.value, r.source, r.target) &&
            Taken(s'.st.sa.value, r.target, r.plan.value) && OnlyTaken(s.st.sa.value, s'.st.sa.value)
  {
    ReachableIsSafe(s0, run);
    CopiesAreKept(s0, run);
    hide Run;
    hide Init;
    var s := Run(s0, run);
    OnlyTransferChangesAccount(s, c);
    TransferIsExclusive(s);
    LockAtTransfer(s);
    RecordFactsOf(s, s.worker.u);
    hide Inv;
    hide LockHeld;
    hide RecoverableSa;
    hide OwnedHere;
    TransferMeans(s.st.recs[s.worker.u].source, s.worker.at.t.uid, s.st.recs[s.worker.u].plan.value, s.worker.at.sa, s.st.clock);
    hide Transferred;
    hide Taken;
    hide Takeable;
    hide OnlyTaken;
    hide AfterWrite;
  }

  lemma LockAtTransfer(s: State)
    requires Inv(s) && s.worker.Busy? && s.worker.u in s.st.recs && s.worker.at.SaPut?
    ensures s.st.recs[s.worker.u].started && LockHeld(s.st, s.st.recs[s.worker.u])
  {
    assert Advancing(s.st, s.st.recs[s.worker.u], s.worker.at.t);
    hide Global;
    hide NormalOk;
    hide LockHeld;
  }

  lemma OnlyTransferChangesAccount(s: State, c: Choice)
    requires StepWorker(s, c).st.sa != s.st.sa
    ensures s.worker.Busy? && s.worker.u in s.st.recs && s.worker.at.SaPut?
  {
    if s.worker.Busy? && s.worker.u in s.st.recs && IsWrite(s.worker.at) && !s.worker.at.SaPut? {
      OtherWritesSpare(s.st, s.worker.u, s.worker.at);
    }
    hide Read;
    hide Write;
    hide AfterWrite;
  }
}
