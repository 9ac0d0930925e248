/** What holds in every reachable state of the protocol. */
module Invariant {
  import opened OwnershipTags
  import opened Azure
  import opened Resources
  import opened ServiceAccounts
  import opened Protocol

  // ---------------------------------------------------------------- the stores

  /** Exactly one of the four conditions is True once any status patch has landed. */
  predicate CondsOk(c: Conds) {
    c == map[] ||
    ((if CondTrue(c, Progressing) then 1 else 0) + (if CondTrue(c, Blocked) then 1 else 0) +
     (if CondTrue(c, Completed) then 1 else 0) + (if CondTrue(c, Failed) then 1 else 0) == 1)
  }

  predicate RecoveryOk(r: Recovery) {
    WellFormed(Req(r), r.target) && CondsOk(r.conds) &&
    (r.commitVerified ==> r.started) &&
    (r.started ==> r.plan.Some? && r.finalizer && !IsFailed(r)) &&
    (IsComplete(r) ==> r.commitVerified) &&
    (r.deleting ==> r.finalizer)
  }

  ghost predicate RecordsOk(recs: map<Uid, Recovery>, used: set<Uid>) {
    (forall u | u in recs :: recs[u].uid == u && u in used && recs[u].source in used && recs[u].target in used) &&
    (forall u | u in recs :: RecoveryOk(recs[u])) &&
    (forall u, v | u in recs && v in recs && recs[u].name == recs[v].name :: u == v)
  }

  /** At most one recovery per previous UID has started. */
  ghost predicate OneStarted(recs: map<Uid, Recovery>) {
    forall u, v | u in recs && v in recs && recs[u].started && recs[v].started && recs[u].source == recs[v].source :: u == v
  }

  ghost predicate NoneStarted(recs: map<Uid, Recovery>, source: Uid) {
    forall u | u in recs && recs[u].source == source :: !recs[u].started
  }

  ghost predicate SomeStarted(recs: map<Uid, Recovery>, source: Uid) {
    exists u :: u in recs && recs[u].source == source && recs[u].started
  }

  ghost predicate WiOk(st: Store) {
    st.local <= st.used &&
    (st.sa.Some? ==> st.sa.value.version < st.clock) &&
    (st.wi.Some? ==>
       var w := st.wi.value;
       w.id.uid in st.local && w.id.uid != "" && w.version < st.clock &&
       (w.evidence.Some? ==> w.finalizer && w.evidence.value != w.id.uid && w.evidence.value != ""))
  }

  /** The UAMI still belongs to `source` and no recovery marker is on it. */
  predicate AtSource(st: Store, source: Uid) {
    st.uami.Some? && Owner(st.uami.value) == source && Unfenced(st.uami.value)
  }

  /** The target named by the recovery carries its evidence and Ready=False/RecoveryInProgress. */
  predicate LockHeld(st: Store, r: Recovery) {
    st.wi.Some? && st.wi.value.id.uid == r.target && st.wi.value.id.key == r.key &&
    st.wi.value.evidence == Some(r.source) && LockedWi(st.wi.value)
  }

  ghost predicate HoldsLockOf(st: Store, u: Uid) {
    u in st.recs && st.recs[u].started && st.wi.Some? && st.recs[u].target == st.wi.value.id.uid &&
    st.recs[u].key == st.wi.value.id.key && Some(st.recs[u].source) == st.wi.value.evidence
  }

  /** Published evidence names the owner of the UAMI; a lock belongs to an untouched UAMI or to
      a started recovery of exactly this source and target. */
  ghost predicate EvidenceOk(st: Store) {
    st.wi.Some? && st.wi.value.evidence.Some? && st.wi.value.ready.Some? && st.wi.value.ready.value.status == StatusFalse ==>
      var w := st.wi.value;
      (w.ready.value.reason == ReasonRecoveryRequired ==> AtSource(st, w.evidence.value)) &&
      (w.ready.value.reason == ReasonRecoveryInProgress ==>
         AtSource(st, w.evidence.value) || exists u :: HoldsLockOf(st, u))
  }

  /** The fence on the UAMI is that of recovery u, and u has everything the fence needs. */
  ghost predicate FencedBy(st: Store, u: Uid) {
    u in st.recs && st.uami.Some? && Fence(st.uami.value) == u &&
    LockHeld(st, st.recs[u]) && st.recs[u].started && !IsComplete(st.recs[u]) && st.recs[u].target in st.local &&
    (StageOf(st, u, st.wi.value.id) == Some(InProgress) || StageOf(st, u, st.wi.value.id) == Some(CommittedFenced)) &&
    (StageOf(st, u, st.wi.value.id) == Some(InProgress) ==> !st.recs[u].commitVerified)
  }

  ghost predicate MarkersOk(st: Store) {
    st.uami.Some? ==>
      var m := st.uami.value;
      Owner(m) in st.used + {""} && LastRecovery(m) in st.used + {""} &&
      (!Unfenced(m) ==> FencedBy(st, Fence(m))) &&
      (LastRecovery(m) in st.recs ==>
         st.recs[LastRecovery(m)].started &&
         (!st.recs[LastRecovery(m)].commitVerified ==> Fence(m) == LastRecovery(m)))
  }

  /** While recovery u has started and its commit is not recorded, the UAMI is still the source's
      or it is fenced by u. */
  predicate SourceHeld(st: Store, r: Recovery) {
    r.started && r.target in st.local ==>
      (st.wi.Some? ==> st.wi.value.id.uid != r.source) &&
      (!r.commitVerified ==>
         st.uami.Some? &&
         (Owner(st.uami.value) == r.source || (Owner(st.uami.value) == r.target && Fence(st.uami.value) == r.uid)))
  }

  ghost predicate Global(st: Store) {
    RecordsOk(st.recs, st.used) && OneStarted(st.recs) && WiOk(st) && MarkersOk(st) && EvidenceOk(st) &&
    forall u | u in st.recs :: SourceHeld(st, st.recs[u])
  }

  // ---------------------------------------------------------------- the worker

  predicate NotFencedBy(st: Store, u: Uid) {
    st.uami.Some? ==> Fence(st.uami.value) != u
  }

  ghost predicate CopyCurrent(st: Store, tags: Tags) {
    st.uami.Some? && SameMarkers(tags, st.uami.value.tags)
  }

  /** Between reconcileForward's checks and the end of the reconcile. */
  predicate Steady(st: Store, r: Recovery) { r.finalizer && !IsComplete(r) && !IsFailed(r) }

  predicate Locked(st: Store, r: Recovery, t: Ident) {
    Steady(st, r) && r.started && r.plan.Some? && r.target in st.local && LockHeld(st, r) && st.wi.value.id == t
  }

  predicate Advancing(st: Store, r: Recovery, t: Ident) { Locked(st, r, t) && !r.commitVerified }
  predicate Finalizing(st: Store, r: Recovery, t: Ident) { Locked(st, r, t) && r.commitVerified }

  predicate Planning(st: Store, r: Recovery) { Steady(st, r) && r.plan.None? && !r.started }

  /** The source still owns the UAMI, or another recovery of this source has already started. */
  ghost predicate Startable(st: Store, r: Recovery) {
    Steady(st, r) && r.plan.Some? && !r.started &&
    (r.target in st.local ==>
       (AtSource(st, r.source) || SomeStarted(st.recs, r.source)) &&
       (st.wi.Some? ==> st.wi.value.id.uid != r.source))
  }

  ghost predicate WorkerAt(st: Store, u: Uid, del: bool, at: At)
    requires u in st.recs
  {
    var r := st.recs[u];
    (del ==> r.deleting) &&
    match at
    case AddFinalizer => !r.started && !del
    case ReadTarget => Steady(st, r)
    case Elsewhere => Steady(st, r) && r.target !in st.local
    case PreIssuer(_) => Planning(st, r)
    case PreUami(_, _) => Planning(st, r)
    case PreFics(_, _) => Planning(st, r)
    case PreSa(_, _) => Planning(st, r)
    case ListForStart => Startable(st, r)
    case LockTarget => Startable(st, r) && NoneStarted(st.recs, r.source)
    case ListForCancel => r.finalizer && !r.started && del
    case ReleaseCancelled => r.finalizer && !r.started && del && NoneStarted(st.recs, r.source)
    case ReleaseCompleted(remove) => IsComplete(r) && (remove ==> del)
    case RemoveFinalizer => del && (!r.started || (IsComplete(r) && !LockHeld(st, r)))
    case PatchStatus(patch) => PatchAt(st, r, patch)
    case MarkGet(t) => Advancing(st, r, t)
    case MarkPut(t, tags) => Advancing(st, r, t) && CopyCurrent(st, tags) && StageOf(st, u, t) == Some(NotStarted)
    case MarkVerify(t) => Advancing(st, r, t)
    case FicGet(t) => Advancing(st, r, t)
    case FicPut(t) => Advancing(st, r, t) && StageOf(st, u, t) == Some(InProgress)
    case FicVerify(t) => Advancing(st, r, t)
    case SaGet(t) => Advancing(st, r, t)
    case SaPut(t, _) => Advancing(st, r, t)
    case SaVerify(t, _) => Advancing(st, r, t)
    case CommitRecovery(t, _) => Advancing(st, r, t)
    case CommitTarget(t, _) => Advancing(st, r, t)
    case CommitSa(t, _) => Advancing(st, r, t)
    case CommitGet(t) => Advancing(st, r, t)
    case CommitFics(t, s, tags) =>
      Advancing(st, r, t) && CopyCurrent(st, tags) && StageOf(st, u, t) == Some(s) && (s == InProgress || s == CommittedFenced)
    case CommitPut(t, tags) => Advancing(st, r, t) && CopyCurrent(st, tags) && StageOf(st, u, t) == Some(InProgress)
    case CommitVerify(t) => Advancing(st, r, t)
    case CommitFicsAfter(t) => Advancing(st, r, t) && StageOf(st, u, t) == Some(CommittedFenced)
    case FinalizeGet(t) => Finalizing(st, r, t)
    case FinalizeFics(t, s, tags) =>
      Finalizing(st, r, t) &&
      (s == Complete ==> NotFencedBy(st, u)) &&
      (s != Complete ==> CopyCurrent(st, tags) && StageOf(st, u, t) == Some(CommittedFenced))
    case FinalizePut(t, tags) => Finalizing(st, r, t) && CopyCurrent(st, tags) && StageOf(st, u, t) == Some(CommittedFenced)
    case FinalizeVerify(t) => Finalizing(st, r, t) && NotFencedBy(st, u)
    case FinalizeFicsAfter(t) => Finalizing(st, r, t) && NotFencedBy(st, u)
  }

  ghost predicate PatchAt(st: Store, r: Recovery, patch: StatusPatch) {
    Steady(st, r) &&
    match patch
    case PatchBlocked => true
    case PatchFailed => !r.started
    case PatchPlan(_) => r.plan.None? && !r.started
    case PatchStarted => Startable(st, r) && NoneStarted(st.recs, r.source)
    case PatchCommitVerified =>
      r.started && r.plan.Some? && !r.commitVerified &&
      (r.target in st.local ==>
         LockHeld(st, r) && st.uami.Some? && Owner(st.uami.value) == r.target && Fence(st.uami.value) == r.uid)
    case PatchComplete => r.commitVerified && (r.target in st.local ==> NotFencedBy(st, r.uid))
  }

  ghost predicate WorkerOk(st: Store, w: Worker) {
    w.Idle? || (if w.u in st.recs then WorkerAt(st, w.u, w.deletion, w.at) else w.at == AddFinalizer && !w.deletion)
  }

  // ---------------------------------------------------------------- the normal reconciler

  /** The UAMI, if there is one, is owned by w and carries no recovery marker. */
  predicate OwnedHere(st: Store, w: Wi) {
    st.uami.Some? ==> Owner(st.uami.value) == w.id.uid && Unfenced(st.uami.value)
  }

  predicate KeepsProvenance(w: Wi, p: Provenance) { Persisted(w).Some? ==> Persisted(w).value == p }

  predicate KeepsState(w: Wi, state: SaState) { Persisted(w).Some? ==> state == Established(Persisted(w).value) }

  ghost predicate NormalAt(st: Store, w: Wi, at: NAt) {
    match at
    case NAddFinalizer => true
    case NIssuer => true
    case NInspect(_) => true
    case NDetect(_) => true
    case NEnsure(state, _) => KeepsState(w, state)
    case NCreate(state, _) => st.uami.None? && KeepsState(w, state)
    case NFicGet(state, _, _) => OwnedHere(st, w) && KeepsState(w, state)
    case NFicPut(state, _, _) => OwnedHere(st, w) && KeepsState(w, state)
    case NSaGet(state, _) => OwnedHere(st, w) && KeepsState(w, state)
    case NSaCreate(p, _) => OwnedHere(st, w) && KeepsProvenance(w, p)
    case NSaPatch(p, _, _) => OwnedHere(st, w) && KeepsProvenance(w, p)
    case NStatus(patch) => StatusAt(st, w, patch)
    case NDeleteGet => true
    case NDeleteUami => OwnedHere(st, w)
    case NDeleteSaGet => st.uami.None?
    case NDeleteSa => st.uami.None? && Persisted(w) != Some(Adopted)
    case NRemoveFinalizer => true
  }

  ghost predicate StatusAt(st: Store, w: Wi, patch: WiPatch) {
    match patch
    case ReadyPatch(p, _, _) => OwnedHere(st, w) && KeepsProvenance(w, p)
    case RequiredPatch(e) => e != "" && e != w.id.uid && (Current(st, w) ==> AtSource(st, e))
    case NotReadyPatch(reason) =>
      (reason.ReasonOther? || reason == ReasonRecoveryInProgress) &&
      (reason == ReasonRecoveryInProgress ==> !Current(st, w))
  }

  /** Past the finalizer, the instance under reconciliation cannot go away. */
  predicate Pinned(st: Store, w: Wi) {
    st.wi.Some? && st.wi.value.id == w.id && st.wi.value.finalizer && w.version <= st.wi.value.version &&
    !LockedWi(w) && w.finalizer &&
    st.wi.value.provenance == w.provenance && st.wi.value.subject == w.subject
  }

  ghost predicate NormalOk(st: Store, n: Normal) {
    n.NIdle? ||
    (n.w.version < st.clock && (Current(st, n.w) ==> st.wi.value == n.w) &&
     (n.at != NAddFinalizer ==> Pinned(st, n.w)) && NormalAt(st, n.w, n.at))
  }

  ghost predicate Inv(s: State) { Global(s.st) && WorkerOk(s.st, s.worker) && NormalOk(s.st, s.normal) }
}
