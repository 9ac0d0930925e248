/** The target lock, the forward-only status, and what is written under them. Each theorem is
    proved for one action from an arbitrary state that satisfies the invariant. */
module LockTheorems {
  import opened OwnershipTags
  import opened Azure
  import opened Resources
  import opened Target
  import opened ServiceAccounts
  import opened Protocol
  import opened Invariant
  import opened WorkerWrites
  import opened FenceTheorems

  // ---------------------------------------------------------------- the lock is held at every write

  predicate MutatesExternals(at: At) {
    at.MarkPut? || at.FicPut? || at.SaPut? || at.CommitPut? || at.FinalizePut?
  }

  lemma ExternalsChangeOnlyAt(s: State, c: Choice)
    requires !SameExternals(s.st, StepWorker(s, c).st)
    ensures s.worker.Busy? && s.worker.u in s.st.recs && MutatesExternals(s.worker.at)
  {
    hide Read;
    hide AfterWrite;
    hide PatchTarget;
    hide Upsert;
    hide Transferred;
    hide MergeTags;
    hide WithoutFence;
  }

  lemma ExternalWritesLeaveTheRest(st: Store, u: Uid, at: At)
    requires u in st.recs && MutatesExternals(at)
    ensures Write(st, u, at).wi == st.wi && Write(st, u, at).recs == st.recs && IsWrite(at)
  {
    hide Transferred;
    hide Upsert;
    hide MergeTags;
    hide WithoutFence;
  }

  /** Each Azure or ServiceAccount write of a recovery happens while its target carries its
      evidence and Ready=False/RecoveryInProgress, after mutation was declared, and does not
      disturb that lock. */
  lemma LockHeldAtEveryWrite(s: State, c: Choice)
    requires Inv(s) && !SameExternals(s.st, Apply(s, WorkerCall(c)).st)
    ensures s.worker.Busy? && s.worker.u in s.st.recs && MutatesExternals(s.worker.at)
    ensures var r, st' := s.st.recs[s.worker.u], Apply(s, WorkerCall(c)).st;
            r.started && r.plan.Some? && LockHeld(s.st, r) && st'.wi == s.st.wi && st'.recs == s.st.recs
  {
    hide WorkerAt;
    hide Global;
    hide NormalOk;
    hide Read;
    hide AfterWrite;
    hide LockHeld;
    hide Transferred;
    hide Upsert;
    hide MergeTags;
    hide WithoutFence;
    hide PatchTarget;
    hide PatchConds;
    ExternalsChangeOnlyAt(s, c);
    UnderLock(s.st, s.worker.u, s.worker.deletion, s.worker.at);
    ExternalWritesLeaveTheRest(s.st, s.worker.u, s.worker.at);
    hide Write;
  }

  lemma UnderLock(st: Store, u: Uid, del: bool, at: At)
    requires u in st.recs && WorkerAt(st, u, del, at) && MutatesExternals(at)
    ensures LockHeld(st, st.recs[u]) && st.recs[u].started && st.recs[u].plan.Some?
  {
    hide LockHeld;
    hide Load;
    hide SameMarkers;
  }

  // ---------------------------------------------------------------- only a release ends the lock

  predicate LockGone(st: Store, st': Store) {
    st.wi.Some? && LockedWi(st.wi.value) &&
    (st'.wi.None? || !LockedWi(st'.wi.value) || st'.wi.value.evidence != st.wi.value.evidence || st'.wi.value.id != st.wi.value.id)
  }

  /** The worker's next call is a release of recovery r's own target. */
  ghost predicate Releases(s: State, a: Action, r: Recovery) {
    a.WorkerCall? && s.worker.Busy? && s.worker.u in s.st.recs && s.st.recs[s.worker.u] == r && LockHeld(s.st, r) &&
    ((s.worker.at.ReleaseCompleted? && IsComplete(r)) ||
     (s.worker.at.ReleaseCancelled? && NoneStarted(s.st.recs, r.source)))
  }

  /** Once held, the lock is changed by nothing but a completed release, or a cancelled release
      made while no recovery of that source has started. Stale status and finalizer writes of the
      normal reconciler, edits and deletion requests all leave it in place. */
  lemma OnlyReleaseEndsLock(s: State, a: Action)
    requires Inv(s) && LockGone(s.st, Apply(s, a).st)
    ensures exists r :: Releases(s, a, r)
  {
    match a
    case WorkerCall(c) =>
      WorkerEndsLock(s, c);
      assert Releases(s, a, s.st.recs[s.worker.u]);
      hide Inv;
    case NormalCall(c) => NormalKeepsLock(s, c); hide Inv;
    case EditWi(_, _) => hide Global;
    case DeleteWi => hide MarkersOk; hide EvidenceOk; hide RecordsOk;
    case _ => hide Inv;
  }

  lemma WorkerEndsLock(s: State, c: Choice)
    requires Inv(s) && LockGone(s.st, StepWorker(s, c).st)
    ensures s.worker.Busy? && s.worker.u in s.st.recs && Releases(s, WorkerCall(c), s.st.recs[s.worker.u])
  {
    hide Global;
    hide NormalOk;
    hide Read;
    hide AfterWrite;
    hide Load;
    hide SameMarkers;
    if s.worker.Busy? && s.worker.u in s.st.recs {
      if !s.worker.at.ReleaseCompleted? && !s.worker.at.ReleaseCancelled? {
        WorkerWriteKeepsLock(s.st, s.worker.u, s.worker.at);
        hide Write;
      }
    }
  }

  lemma WorkerWriteKeepsLock(st: Store, u: Uid, at: At)
    requires u in st.recs && !at.ReleaseCompleted? && !at.ReleaseCancelled?
    ensures !LockGone(st, Write(st, u, at))
  {
    hide Transferred;
    hide Upsert;
    hide MergeTags;
    hide WithoutFence;
    hide PatchConds;
  }

  lemma NormalKeepsLock(s: State, c: Choice)
    requires Inv(s)
    ensures !LockGone(s.st, StepNormal(s, c).st)
  {
    hide MarkersOk;
    hide EvidenceOk;
    hide RecordsOk;
    hide WorkerOk;
    hide NormalAt;
    hide Upsert;
    hide NormalRead;
    hide AfterNormalWrite;
    hide Persisted;
  }

  /** In particular the lock of a started, unfinished recovery survives every action of anybody. */
  lemma StartedLockPersists(s: State, a: Action, u: Uid)
    requires Inv(s) && u in s.st.recs && s.st.recs[u].started && !IsComplete(s.st.recs[u]) &&
             LockHeld(s.st, s.st.recs[u])
    ensures u in Apply(s, a).st.recs && LockHeld(Apply(s, a).st, Apply(s, a).st.recs[u])
  {
    StatusIsForwardOnly(s, a, u);
    if LockGone(s.st, Apply(s, a).st) {
      OnlyReleaseEndsLock(s, a);
    }
    hide Inv;
    hide Apply;
  }

  // ---------------------------------------------------------------- the status only moves forward

  ghost predicate MovesForward(r: Recovery, r': Recovery) {
    Progress(r, r') && (IsComplete(r) ==> IsComplete(r')) && (IsFailed(r) ==> IsFailed(r')) && (r.deleting ==> r'.deleting)
  }

  /** MutationStarted, CommitVerified, Complete and Failed never revert, a plan is never replaced,
      and a recovery leaves only before mutation or after completion. */
  lemma StatusIsForwardOnly(s: State, a: Action, u: Uid)
    requires Inv(s) && u in s.st.recs
    ensures var st' := Apply(s, a).st;
            if u in st'.recs then MovesForward(s.st.recs[u], st'.recs[u])
            else !s.st.recs[u].started || (IsComplete(s.st.recs[u]) && s.st.recs[u].deleting)
  {
    match a
    case WorkerCall(c) => WorkerMovesForward(s, c, u); hide Inv; hide StepWorker;
    case NormalCall(c) => NormalLeavesRecords(s, c); hide Inv; hide StepNormal; hide CondTrue;
    case _ => UsersMoveForward(s, a, u); hide Inv; hide Apply;
  }

  lemma UsersMoveForward(s: State, a: Action, u: Uid)
    requires Inv(s) && u in s.st.recs && !a.WorkerCall? && !a.NormalCall?
    ensures var st' := Apply(s, a).st;
            if u in st'.recs then MovesForward(s.st.recs[u], st'.recs[u]) else !s.st.recs[u].started
  {
    assert s.st.recs[u].started ==> s.st.recs[u].finalizer by { assert RecoveryOk(s.st.recs[u]); hide CondsOk; }
    assert u in s.st.used;
    hide Inv;
    hide CondTrue;
    UsersLeaveRecords(s, a, u);
    hide Apply;
  }

  lemma UsersLeaveRecords(s: State, a: Action, u: Uid)
    requires u in s.st.recs && u in s.st.used && !a.WorkerCall? && !a.NormalCall?
    ensures var recs, recs' := s.st.recs, Apply(s, a).st.recs;
            (u !in recs' ==> !recs[u].finalizer) &&
            (u in recs' ==> recs'[u] == recs[u] || (recs'[u] == recs[u].(deleting := true) && recs[u].finalizer))
  {
    hide Enter;
    hide NormalEnter;
    hide EditedTags;
  }

  lemma NormalLeavesRecords(s: State, c: Choice)
    ensures StepNormal(s, c).st.recs == s.st.recs
  {
    hide NormalRead;
    hide AfterNormalWrite;
    hide ApplyWiPatch;
    hide Upsert;
  }

  lemma WorkerMovesForward(s: State, c: Choice, u: Uid)
    requires Inv(s) && u in s.st.recs
    ensures var st' := StepWorker(s, c).st;
            if u in st'.recs then MovesForward(s.st.recs[u], st'.recs[u])
            else !s.st.recs[u].started || (IsComplete(s.st.recs[u]) && s.st.recs[u].deleting)
  {
    if s.worker.Busy? && s.worker.u in s.st.recs && IsWrite(s.worker.at) {
      assert RecoveryOk(s.st.recs[s.worker.u]) && s.st.recs[s.worker.u].uid == s.worker.u;
      assert WorkerAt(s.st, s.worker.u, s.worker.deletion, s.worker.at);
      hide Inv;
      WriteMovesForward(s.st, s.worker.u, s.worker.deletion, s.worker.at, u);
      hide Write;
    }
    hide Inv;
    hide Read;
    hide AfterWrite;
    hide WorkerAt;
    hide RecoveryOk;
    hide CondTrue;
  }

  lemma WriteMovesForward(st: Store, w: Uid, del: bool, at: At, u: Uid)
    requires w in st.recs && u in st.recs && WorkerAt(st, w, del, at) && RecoveryOk(st.recs[w])
    ensures var st' := Write(st, w, at);
            if u in st'.recs then MovesForward(st.recs[u], st'.recs[u])
            else !st.recs[u].started || (IsComplete(st.recs[u]) && st.recs[u].deleting)
  {
    if at.PatchStatus? {
      assert PatchAt(st, st.recs[w], at.patch);
      hide WorkerAt;
      PatchedRecordOk(st.recs[w], at.patch);
      hide RecoveryOk;
      hide PatchConds;
      hide CondTrue;
    } else if at.RemoveFinalizer? {
      hide CondTrue;
    } else {
      RecordsUntouched(st, w, at);
      hide Write;
      hide WorkerAt;
      hide CondTrue;
    }
  }

  lemma RecordsUntouched(st: Store, w: Uid, at: At)
    requires w in st.recs && !at.PatchStatus? && !at.RemoveFinalizer?
    ensures Write(st, w, at).recs == st.recs || Write(st, w, at).recs == st.recs[w := st.recs[w].(finalizer := true)]
  {
    hide Transferred;
    hide Upsert;
    hide PatchTarget;
    hide MergeTags;
    hide WithoutFence;
  }
}
