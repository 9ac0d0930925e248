/** Every writing call of the recovery worker keeps the invariant, including the part of it that
    speaks about a normal reconcile that is under way at the same time. */
module WorkerWrites {
  import opened OwnershipTags
  import opened Azure
  import opened Resources
  import opened Target
  import opened ServiceAccounts
  import opened Protocol
  import opened Invariant
  import opened TagWrites

  /** st' differs from st at most in the credentials, the ServiceAccount and the clock. */
  ghost predicate OnlyAccountsDiffer(st: Store, st': Store) {
    st' == st.(fics := st'.fics, sa := st'.sa, clock := st'.clock) && st.clock <= st'.clock &&
    (st'.sa.Some? ==> st'.sa.value.version < st'.clock)
  }

  lemma GlobalIgnoresAccounts(st: Store, st': Store)
    requires OnlyAccountsDiffer(st, st') && Global(st)
    ensures Global(st')
  {
    hide Load;
    hide RecoveryOk;
    forall u | FencedBy(st, u)
      ensures FencedBy(st', u)
    {
    }
    forall u | HoldsLockOf(st, u)
      ensures HoldsLockOf(st', u)
    {
    }
  }

  lemma WorkerIgnoresAccounts(st: Store, st': Store, u: Uid, del: bool, at: At)
    requires OnlyAccountsDiffer(st, st') && u in st.recs && WorkerAt(st, u, del, at)
    ensures WorkerAt(st', u, del, at)
  {
    hide Load;
    hide LockedWi;
    hide SameMarkers;
    hide SomeStarted;
    hide NoneStarted;
    hide Unfenced;
  }

  lemma NormalIgnoresAccounts(st: Store, st': Store, n: Normal)
    requires OnlyAccountsDiffer(st, st') && NormalOk(st, n)
    ensures NormalOk(st', n)
  {
    hide LockedWi;
    hide Unfenced;
    hide Persisted;
  }

  // ---------------------------------------------------------------- Kubernetes status of the recovery

  /** A change of one record that keeps what everybody else relies on. */
  ghost predicate Progress(r: Recovery, r': Recovery) {
    r' == r.(finalizer := r'.finalizer, deleting := r'.deleting, started := r'.started,
             commitVerified := r'.commitVerified, plan := r'.plan, conds := r'.conds) &&
    (r.started ==> r'.started) && (r.commitVerified ==> r'.commitVerified) &&
    (r.plan.Some? ==> r'.plan == r.plan)
  }

  ghost function WithRecord(st: Store, r: Recovery): Store { st.(recs := st.recs[r.uid := r]) }

  lemma RecordUpdateRecords(st: Store, r: Recovery)
    requires Global(st) && r.uid in st.recs && Progress(st.recs[r.uid], r) && RecoveryOk(r)
    requires r.started && !st.recs[r.uid].started ==> NoneStarted(st.recs, r.source)
    ensures RecordsOk(WithRecord(st, r).recs, st.used) && OneStarted(WithRecord(st, r).recs)
  {
    hide RecoveryOk;
    hide MarkersOk;
    hide EvidenceOk;
    hide SourceHeld;
    hide WiOk;
  }

  /** A record may complete only once its fence is gone, and may be marked commit-verified only
      at stage CommittedFenced. */
  ghost predicate FenceAllows(st: Store, r: Recovery)
    requires r.uid in st.recs
  {
    st.uami.Some? && Fence(st.uami.value) == r.uid ==>
      !IsComplete(r) &&
      (r.commitVerified && !st.recs[r.uid].commitVerified && st.wi.Some? ==>
         StageOf(st, r.uid, st.wi.value.id) == Some(CommittedFenced))
  }

  lemma RecordUpdateMarkers(st: Store, r: Recovery)
    requires Global(st) && r.uid in st.recs && Progress(st.recs[r.uid], r) && RecoveryOk(r) && FenceAllows(st, r)
    ensures MarkersOk(WithRecord(st, r)) && EvidenceOk(WithRecord(st, r))
  {
    var st' := WithRecord(st, r);
    assert RecoveryOk(st.recs[r.uid]);
    if st.uami.Some? && !Unfenced(st.uami.value) {
      assert FencedBy(st, Fence(st.uami.value));
      hide Load;
      assert FencedBy(st', Fence(st.uami.value));
    }
    forall v | HoldsLockOf(st, v)
      ensures HoldsLockOf(st', v)
    {
    }
    hide RecordsOk;
    hide FencedBy;
    hide SourceHeld;
    hide RecoveryOk;
  }

  lemma RecordUpdate(st: Store, r: Recovery)
    requires Global(st) && r.uid in st.recs && Progress(st.recs[r.uid], r) && RecoveryOk(r) && FenceAllows(st, r)
    requires r.started && !st.recs[r.uid].started ==> NoneStarted(st.recs, r.source)
    requires SourceHeld(st, r)
    ensures Global(WithRecord(st, r))
  {
    RecordUpdateRecords(st, r);
    RecordUpdateMarkers(st, r);
    hide RecordsOk;
    hide OneStarted;
    hide MarkersOk;
    hide EvidenceOk;
    hide RecoveryOk;
  }

  lemma NormalIgnoresRecords(st: Store, recs: map<Uid, Recovery>, n: Normal)
    requires NormalOk(st, n)
    ensures NormalOk(st.(recs := recs), n)
  {
    hide LockedWi;
    hide Unfenced;
    hide Persisted;
  }

  lemma AddFinalizerKeeps(st: Store, u: Uid, del: bool)
    requires Global(st) && u in st.recs && WorkerAt(st, u, del, AddFinalizer)
    ensures Global(Write(st, u, AddFinalizer))
  {
    assert RecoveryOk(st.recs[u]) && st.recs[u].uid == u && SourceHeld(st, st.recs[u]);
    var r := st.recs[u].(finalizer := true);
    if st.uami.Some? && Fence(st.uami.value) == u {
      assert false;
    }
    hide Global;
    RecordUpdate(st, r);
  }

  lemma PatchedRecordOk(r: Recovery, patch: StatusPatch)
    requires RecoveryOk(r) && !IsComplete(r) && !IsFailed(r)
    requires patch == PatchFailed ==> !r.started
    requires patch.PatchPlan? ==> r.plan.None? && !r.started
    requires patch == PatchStarted ==> r.plan.Some? && r.finalizer
    requires patch == PatchCommitVerified ==> r.started
    requires patch == PatchComplete ==> r.commitVerified
    ensures RecoveryOk(ApplyPatch(r, patch)) && Progress(r, ApplyPatch(r, patch))
    ensures IsComplete(ApplyPatch(r, patch)) <==> patch == PatchComplete
  {
  }

  lemma PatchStatusKeeps(st: Store, u: Uid, del: bool, patch: StatusPatch)
    requires Global(st) && u in st.recs && WorkerAt(st, u, del, PatchStatus(patch))
    ensures Global(Write(st, u, PatchStatus(patch)))
    ensures WorkerOk(Write(st, u, PatchStatus(patch)), AfterWrite(st, u, del, PatchStatus(patch)))
  {
    var r := st.recs[u];
    assert RecoveryOk(r) && r.uid == u && SourceHeld(st, r);
    PatchedRecordOk(r, patch);
    PatchRespectsMarkers(st, u, patch);
    hide Global;
    RecordUpdate(st, ApplyPatch(r, patch));
    hide RecoveryOk;
    hide SourceHeld;
    hide PatchConds;
    hide PatchAt;
  }

  lemma PatchRespectsMarkers(st: Store, u: Uid, patch: StatusPatch)
    requires Global(st) && u in st.recs && PatchAt(st, st.recs[u], patch)
    ensures FenceAllows(st, ApplyPatch(st.recs[u], patch)) && SourceHeld(st, ApplyPatch(st.recs[u], patch))
    ensures patch == PatchStarted ==> NoneStarted(st.recs, st.recs[u].source)
  {
  }

  // ---------------------------------------------------------------- the target's Ready condition

  /** A patch of the target's Ready condition that leaves everything else alone. */
  ghost predicate ReadyPatched(st: Store, st': Store) {
    st' == st.(wi := st'.wi, clock := st.clock + 1) &&
    (st'.wi == st.wi ||
     (st.wi.Some? && st'.wi.Some? && st'.wi.value == st.wi.value.(ready := st'.wi.value.ready, version := st.clock)))
  }

  lemma NormalSurvivesReadyPatch(st: Store, st': Store, n: Normal)
    requires ReadyPatched(st, st') && NormalOk(st, n)
    ensures NormalOk(st', n)
  {
    hide Unfenced;
    hide Persisted;
  }

  /** What a Ready patch has to keep so that the global invariant survives it. */
  lemma ReadyPatchKeepsGlobal(st: Store, st': Store)
    requires Global(st) && ReadyPatched(st, st')
    requires forall v | v in st.recs && LockHeld(st, st.recs[v]) && st.recs[v].started && !IsComplete(st.recs[v]) :: LockHeld(st', st.recs[v])
    requires st'.wi != st.wi && LockedWi(st'.wi.value) ==> AtSource(st, st'.wi.value.evidence.value)
    requires st'.wi != st.wi ==> st'.wi.value.ready.Some? && st'.wi.value.ready.value.reason != ReasonRecoveryRequired
    ensures Global(st')
  {
    LockedStaysFenced(st, st');
    EvidenceSurvives(st, st');
    hide RecordsOk;
    hide OneStarted;
    hide MarkersOk;
    hide EvidenceOk;
  }

  /** A Ready patch that leaves a held lock in place leaves the fence in place. */
  lemma LockedStaysFenced(st: Store, st': Store)
    requires Global(st) && ReadyPatched(st, st')
    requires forall v | v in st.recs && LockHeld(st, st.recs[v]) && st.recs[v].started && !IsComplete(st.recs[v]) :: LockHeld(st', st.recs[v])
    ensures MarkersOk(st')
  {
    if st.uami.Some? && !Unfenced(st.uami.value) {
      assert FencedBy(st, Fence(st.uami.value));
      hide Load;
      assert FencedBy(st', Fence(st.uami.value));
    }
    hide FencedBy;
  }

  lemma EvidenceSurvives(st: Store, st': Store)
    requires EvidenceOk(st) && ReadyPatched(st, st')
    requires st'.wi != st.wi && LockedWi(st'.wi.value) ==> AtSource(st, st'.wi.value.evidence.value)
    requires st'.wi != st.wi ==> st'.wi.value.ready.Some? && st'.wi.value.ready.value.reason != ReasonRecoveryRequired
    ensures EvidenceOk(st')
  {
    if st'.wi == st.wi {
      forall v | HoldsLockOf(st, v)
        ensures HoldsLockOf(st', v)
      {
      }
    }
  }

  lemma LockKeeps(st: Store, u: Uid, del: bool)
    requires Global(st) && u in st.recs && WorkerAt(st, u, del, LockTarget)
    ensures Global(Write(st, u, LockTarget)) && ReadyPatched(st, Write(st, u, LockTarget))
    ensures WorkerOk(Write(st, u, LockTarget), AfterWrite(st, u, del, LockTarget))
  {
    var r := st.recs[u];
    var st' := Write(st, u, LockTarget);
    assert NoneStarted(st.recs, r.source) && !SomeStarted(st.recs, r.source);
    LockStartsClean(st, u);
    ReadyPatchKeepsGlobal(st, st');
    hide Global;
    hide NoneStarted;
    hide SomeStarted;
    hide AtSource;
  }

  lemma LockStartsClean(st: Store, u: Uid)
    requires Global(st) && u in st.recs && Startable(st, st.recs[u]) && !SomeStarted(st.recs, st.recs[u].source)
    ensures var st' := Write(st, u, LockTarget);
            (st'.wi != st.wi ==> AtSource(st, st.recs[u].source) && st'.wi.value.ready.Some? && st'.wi.value.ready.value.reason == ReasonRecoveryInProgress &&
                                 st'.wi.value.evidence == Some(st.recs[u].source)) &&
            forall v | v in st.recs && LockHeld(st, st.recs[v]) :: LockHeld(st', st.recs[v])
  {
    hide RecordsOk;
    hide OneStarted;
    hide MarkersOk;
    hide EvidenceOk;
    hide SourceHeld;
    hide AtSource;
  }

  lemma ReleaseKeeps(st: Store, u: Uid, del: bool, at: At)
    requires Global(st) && u in st.recs && WorkerAt(st, u, del, at) && (at.ReleaseCancelled? || at.ReleaseCompleted?)
    ensures Global(Write(st, u, at)) && ReadyPatched(st, Write(st, u, at))
    ensures WorkerOk(Write(st, u, at), AfterWrite(st, u, del, at))
  {
    var r := st.recs[u];
    var st' := Write(st, u, at);
    assert RecoveryOk(r);
    forall v | v in st.recs && LockHeld(st, st.recs[v]) && st.recs[v].started && !IsComplete(st.recs[v])
      ensures LockHeld(st', st.recs[v])
    {
      if Patchable(r, st.wi, RELEASE_FROM) {
        assert st.recs[v].source == r.source;
      }
    }
    ReadyPatchKeepsGlobal(st, st');
    hide Global;
    hide RecoveryOk;
    hide NoneStarted;
  }

  lemma RemoveFinalizerKeeps(st: Store, u: Uid, del: bool)
    requires Global(st) && u in st.recs && WorkerAt(st, u, del, RemoveFinalizer)
    ensures Global(Write(st, u, RemoveFinalizer))
  {
    var st' := Write(st, u, RemoveFinalizer);
    assert RecoveryOk(st.recs[u]);
    assert !st.recs[u].started || (IsComplete(st.recs[u]) && !LockHeld(st, st.recs[u]));
    hide RecoveryOk;
    hide WorkerAt;
    FenceSurvivesRemoval(st, u);
    forall v | HoldsLockOf(st, v) && LockedWi(st.wi.value)
      ensures HoldsLockOf(st', v)
    {
    }
    hide FencedBy;
    hide Unfenced;
    hide IsComplete;
  }

  lemma FenceSurvivesRemoval(st: Store, u: Uid)
    requires MarkersOk(st) && u in st.recs && (!st.recs[u].started || IsComplete(st.recs[u]))
    ensures st.uami.Some? && !Unfenced(st.uami.value) ==> FencedBy(st.(recs := st.recs - {u}), Fence(st.uami.value))
  {
    if st.uami.Some? && !Unfenced(st.uami.value) {
      assert FencedBy(st, Fence(st.uami.value));
      hide Load;
      hide LockHeld;
      hide MarkersOk;
      hide IsComplete;
      assert Fence(st.uami.value) != u;
      RemovalKeepsFence(st, u, Fence(st.uami.value));
    }
  }

  lemma RemovalKeepsFence(st: Store, u: Uid, f: Uid)
    requires FencedBy(st, f) && f != u
    ensures FencedBy(st.(recs := st.recs - {u}), f)
  {
    hide Load;
    hide LockedWi;
  }

  // ---------------------------------------------------------------- the tags of the UAMI

  /** The normal reconciler has nothing in flight that a locked target's tag write could disturb. */
  lemma NormalSurvivesTags(st: Store, tags: Tags, r: Recovery, n: Normal)
    requires NormalOk(st, n) && LockHeld(st, r) && st.uami.Some?
    requires Owner(st.uami.value) != r.target || !Unfenced(st.uami.value)
    ensures NormalOk(PutTags(st, tags), n)
  {
    hide Unfenced;
    hide Persisted;
  }

  /** What a tag write under the lock of u has to achieve so that the global invariant survives it. */
  lemma TagWriteKeepsGlobal(st: Store, st': Store, u: Uid)
    requires Global(st) && u in st.recs && st.recs[u].started && LockHeld(st, st.recs[u]) && st.uami.Some?
    requires st'.uami.Some? && st' == st.(uami := st'.uami)
    requires Owner(st'.uami.value) in st.used && LastRecovery(st'.uami.value) in st.used + {""}
    requires Unfenced(st'.uami.value) || (Fence(st'.uami.value) == u && FencedBy(st', u))
    requires LastRecovery(st'.uami.value) == LastRecovery(st.uami.value) || LastRecovery(st'.uami.value) == u
    requires LastRecovery(st'.uami.value) in st.recs && !st.recs[LastRecovery(st'.uami.value)].commitVerified ==>
               Fence(st'.uami.value) == LastRecovery(st'.uami.value)
    requires forall v | v in st.recs :: SourceHeld(st', st.recs[v])
    ensures Global(st')
  {
    assert HoldsLockOf(st', u);
    hide RecordsOk;
    hide OneStarted;
    hide FencedBy;
    hide Unfenced;
    hide HoldsLockOf;
    hide SourceHeld;
  }

  /** The source claims of the other recoveries survive a tag write under the lock of u. */
  lemma OthersKeepTheirSource(st: Store, st': Store, u: Uid)
    requires Global(st) && u in st.recs && LockHeld(st, st.recs[u]) && st.recs[u].started && st.uami.Some?
    requires st'.uami.Some? && st' == st.(uami := st'.uami)
    requires Unfenced(st.uami.value) || Fence(st.uami.value) == u
    requires Owner(st'.uami.value) == Owner(st.uami.value) || Owner(st.uami.value) == st.recs[u].source
    requires SourceHeld(st', st.recs[u])
    requires st.recs[u].target == Owner(st.uami.value) ==> st.recs[u].commitVerified
    ensures forall v | v in st.recs :: SourceHeld(st', st.recs[v])
  {
    forall v | v in st.recs
      ensures SourceHeld(st', st.recs[v])
    {
      assert SourceHeld(st, st.recs[v]) && RecoveryOk(st.recs[v]) && st.recs[v].uid == v;
      hide RecordsOk;
      hide MarkersOk;
      hide EvidenceOk;
      hide WiOk;
    }
    hide Global;
    hide SourceHeld;
  }

  /** What the global invariant says of one record. */
  lemma RecordFacts(st: Store, u: Uid)
    requires Global(st) && u in st.recs
    ensures var r := st.recs[u];
            RecoveryOk(r) && WellFormed(Req(r), r.target) && r.uid == u && u in st.used && r.source in st.used && r.target in st.used
    ensures SourceHeld(st, st.recs[u]) && MarkersOk(st)
  {
    hide MarkersOk;
    hide EvidenceOk;
    hide CondsOk;
    hide WiOk;
    hide SourceHeld;
  }

  lemma NoEmptyUid(st: Store)
    requires Global(st)
    ensures "" !in st.recs
  {
    if "" in st.recs {
      RecordFacts(st, "");
      hide Global;
      assert false;
    }
  }

  predicate WritesTags(at: At) { at.MarkPut? || at.CommitPut? || at.FinalizePut? }

  /** The stage before each tag write. */
  function StageBefore(at: At): Stage {
    if at.MarkPut? then NotStarted else if at.CommitPut? then InProgress else CommittedFenced
  }

  /** What the worker's assertion says just before a tag write. */
  lemma TagWriteFacts(st: Store, u: Uid, del: bool, at: At)
    requires u in st.recs && WorkerAt(st, u, del, at) && WritesTags(at)
    ensures del ==> st.recs[u].deleting
    ensures CopyCurrent(st, at.tags) && st.uami.Some? && StageOf(st, u, at.t) == Some(StageBefore(at))
    ensures if at.FinalizePut? then Finalizing(st, st.recs[u], at.t) else Advancing(st, st.recs[u], at.t)
  {
    hide StageOf;
    hide SameMarkers;
    hide Locked;
  }

  lemma MarkPutKeeps(st: Store, u: Uid, del: bool, t: Ident, tags: Tags)
    requires Global(st) && u in st.recs && WorkerAt(st, u, del, MarkPut(t, tags))
    ensures Global(Write(st, u, MarkPut(t, tags)))
    ensures WorkerOk(Write(st, u, MarkPut(t, tags)), AfterWrite(st, u, del, MarkPut(t, tags)))
    ensures st.uami.Some? && Owner(st.uami.value) != st.recs[u].target && LockHeld(st, st.recs[u])
  {
    hide Load;
    hide CondsOk;
    hide AtStage;
    hide SameMarkers;
    hide Global;
    hide WorkerAt;
    hide MergeTags;
    hide FenceTags;
    var r, st' := st.recs[u], Write(st, u, MarkPut(t, tags));
    RecordFacts(st, u);
    NoEmptyUid(st);
    TagWriteFacts(st, u, del, MarkPut(t, tags));
    AfterMark(st.uamiId, Req(r), t, r.plan, st.uami.value, tags);
    assert FencedBy(st', u);
    OthersKeepTheirSource(st, st', u);
    TagWriteKeepsGlobal(st, st', u);
    assert AfterWrite(st, u, del, MarkPut(t, tags)) == Busy(u, del, MarkVerify(t));
    AdvancingKeepsGoing(st', u, del, t);
  }

  lemma AdvancingKeepsGoing(st: Store, u: Uid, del: bool, t: Ident)
    requires u in st.recs && (del ==> st.recs[u].deleting)
    ensures Advancing(st, st.recs[u], t) ==> WorkerOk(st, Busy(u, del, MarkVerify(t))) && WorkerOk(st, Busy(u, del, CommitVerify(t)))
    ensures Finalizing(st, st.recs[u], t) && NotFencedBy(st, u) ==> WorkerOk(st, Busy(u, del, FinalizeVerify(t)))
  {
    hide LockHeld;
    hide Steady;
  }

  lemma CommitPutKeeps(st: Store, u: Uid, del: bool, t: Ident, tags: Tags)
    requires Global(st) && u in st.recs && WorkerAt(st, u, del, CommitPut(t, tags))
    ensures Global(Write(st, u, CommitPut(t, tags)))
    ensures WorkerOk(Write(st, u, CommitPut(t, tags)), AfterWrite(st, u, del, CommitPut(t, tags)))
    ensures st.uami.Some? && !Unfenced(st.uami.value) && LockHeld(st, st.recs[u])
  {
    hide Load;
    hide CondsOk;
    hide AtStage;
    hide SameMarkers;
    hide Global;
    hide WorkerAt;
    hide MergeTags;
    hide CommitTags;
    var r, st' := st.recs[u], Write(st, u, CommitPut(t, tags));
    RecordFacts(st, u);
    TagWriteFacts(st, u, del, CommitPut(t, tags));
    AfterCommit(st.uamiId, Req(r), t, r.plan, st.uami.value, tags);
    assert FencedBy(st', u);
    OthersKeepTheirSource(st, st', u);
    TagWriteKeepsGlobal(st, st', u);
    assert AfterWrite(st, u, del, CommitPut(t, tags)) == Busy(u, del, CommitVerify(t));
    AdvancingKeepsGoing(st', u, del, t);
  }

  lemma FinalizePutKeeps(st: Store, u: Uid, del: bool, t: Ident, tags: Tags)
    requires Global(st) && u in st.recs && WorkerAt(st, u, del, FinalizePut(t, tags))
    ensures Global(Write(st, u, FinalizePut(t, tags)))
    ensures WorkerOk(Write(st, u, FinalizePut(t, tags)), AfterWrite(st, u, del, FinalizePut(t, tags)))
    ensures st.uami.Some? && !Unfenced(st.uami.value) && LockHeld(st, st.recs[u])
  {
    hide Load;
    hide CondsOk;
    hide AtStage;
    hide SameMarkers;
    hide Global;
    hide WorkerAt;
    hide WithoutFence;
    var r, st' := st.recs[u], Write(st, u, FinalizePut(t, tags));
    RecordFacts(st, u);
    TagWriteFacts(st, u, del, FinalizePut(t, tags));
    AfterFinalize(st.uamiId, Req(r), t, r.plan, st.uami.value, tags);
    OthersKeepTheirSource(st, st', u);
    TagWriteKeepsGlobal(st, st', u);
    assert AfterWrite(st, u, del, FinalizePut(t, tags)) == Busy(u, del, FinalizeVerify(t));
    AdvancingKeepsGoing(st', u, del, t);
  }

  // ---------------------------------------------------------------- credentials and ServiceAccount

  lemma AccountWriteKeeps(st: Store, u: Uid, del: bool, at: At)
    requires Global(st) && u in st.recs && WorkerAt(st, u, del, at) && (at.FicPut? || at.SaPut?)
    ensures OnlyAccountsDiffer(st, Write(st, u, at))
    ensures WorkerOk(st, AfterWrite(st, u, del, at)) && LockHeld(st, st.recs[u])
  {
    hide Load;
    hide MarkersOk;
    hide EvidenceOk;
    hide RecordsOk;
    hide LockedWi;
  }

  /** The writing calls to Azure and to the account. */
  lemma ExternalWriteKeeps(st: Store, u: Uid, del: bool, at: At, n: Normal)
    requires Global(st) && u in st.recs && WorkerAt(st, u, del, at) && NormalOk(st, n)
    requires at.MarkPut? || at.CommitPut? || at.FinalizePut? || at.FicPut? || at.SaPut?
    ensures Global(Write(st, u, at))
    ensures WorkerOk(Write(st, u, at), AfterWrite(st, u, del, at))
    ensures NormalOk(Write(st, u, at), n)
  {
    var st' := Write(st, u, at);
    hide Global;
    hide WorkerAt;
    hide WorkerOk;
    hide NormalOk;
    match at
    case MarkPut(t, tags) =>
      MarkPutKeeps(st, u, del, t, tags);
      NormalSurvivesTags(st, st'.uami.value.tags, st.recs[u], n);
    case CommitPut(t, tags) =>
      CommitPutKeeps(st, u, del, t, tags);
      NormalSurvivesTags(st, st'.uami.value.tags, st.recs[u], n);
    case FinalizePut(t, tags) =>
      FinalizePutKeeps(st, u, del, t, tags);
      NormalSurvivesTags(st, st'.uami.value.tags, st.recs[u], n);
    case FicPut(t) =>
      AccountWriteKeeps(st, u, del, at);
      WorkerSurvivesAccounts(st, st', AfterWrite(st, u, del, at));
      GlobalIgnoresAccounts(st, st');
      NormalIgnoresAccounts(st, st', n);
    case SaPut(t, sa) =>
      AccountWriteKeeps(st, u, del, at);
      WorkerSurvivesAccounts(st, st', AfterWrite(st, u, del, at));
      GlobalIgnoresAccounts(st, st');
      NormalIgnoresAccounts(st, st', n);
  }

  /** All writing calls of the worker. */
  lemma WorkerWriteKeeps(st: Store, u: Uid, del: bool, at: At, n: Normal)
    requires Global(st) && u in st.recs && WorkerAt(st, u, del, at) && IsWrite(at) && NormalOk(st, n)
    ensures Global(Write(st, u, at))
    ensures WorkerOk(Write(st, u, at), AfterWrite(st, u, del, at))
    ensures NormalOk(Write(st, u, at), n)
  {
    var st' := Write(st, u, at);
    hide Global;
    hide WorkerAt;
    hide WorkerOk;
    hide NormalOk;
    match at
    case AddFinalizer =>
      AddFinalizerKeeps(st, u, del);
      NormalIgnoresRecords(st, st'.recs, n);
      IdleIsOk(st');
    case PatchStatus(patch) =>
      PatchStatusKeeps(st, u, del, patch);
      NormalIgnoresRecords(st, st'.recs, n);
    case RemoveFinalizer =>
      RemoveFinalizerKeeps(st, u, del);
      NormalIgnoresRecords(st, st'.recs, n);
      IdleIsOk(st');
    case LockTarget =>
      LockKeeps(st, u, del);
      NormalSurvivesReadyPatch(st, st', n);
    case ReleaseCancelled =>
      ReleaseKeeps(st, u, del, at);
      NormalSurvivesReadyPatch(st, st', n);
    case ReleaseCompleted(_) =>
      ReleaseKeeps(st, u, del, at);
      NormalSurvivesReadyPatch(st, st', n);
    case _ =>
      ExternalWriteKeeps(st, u, del, at, n);
  }

  lemma IdleIsOk(st: Store)
    ensures WorkerOk(st, Idle)
  {
    hide WorkerAt;
  }

  lemma WorkerSurvivesAccounts(st: Store, st': Store, w: Worker)
    requires OnlyAccountsDiffer(st, st') && WorkerOk(st, w)
    ensures WorkerOk(st', w)
  {
    hide WorkerAt;
    if w.Busy? && w.u in st.recs {
      WorkerIgnoresAccounts(st, st', w.u, w.deletion, w.at);
    }
  }
}
