/** The transition system: the Kubernetes and Azure stores, the single recovery worker and the
    normal reconciler of one logical identity, each advancing by one API call at a time.

    The system follows one UAMI name. WorkloadIdentities that use that name come and go in `wi`
    (admission keeps the name unique, so there is at most one); any number of recoveries exist,
    for this identity or for others. The branches of every call are those of the source; a
    crash, or an API error that ends a reconcile, is the action that drops the local state. */
module Protocol {
  import opened OwnershipTags
  import opened Azure
  import opened Resources
  import opened Target
  import opened ServiceAccounts
  import Election

  datatype Store = Store(
    uamiId: string,               // the resource ID the configured scope gives the UAMI name
    uami: Option<Uami>,
    fics: seq<Fic>,
    sa: Option<Sa>,
    wi: Option<Wi>,
    recs: map<Uid, Recovery>,
    clock: nat,                   // above every resource version handed out
    used: set<Uid>,               // every UID handed out or mentioned so far
    local: set<Uid>)              // the WorkloadIdentity instances that ever used the UAMI name

  // ---------------------------------------------------------------- the recovery worker

  /** Where the worker stands inside one reconcile, with what it has read so far. `t` is the
      immutable part of the target, `tags` and `sa` are copies read earlier. */
  datatype At =
    | AddFinalizer
    | ReadTarget
    | Elsewhere                                     // the target uses another UAMI name
    | PreIssuer(t: Ident)
    | PreUami(t: Ident, url: string)
    | PreFics(t: Ident, plan: Plan)
    | PreSa(t: Ident, plan: Plan)
    | ListForStart
    | LockTarget
    | ListForCancel
    | ReleaseCancelled
    | ReleaseCompleted(remove: bool)
    | RemoveFinalizer
    | PatchStatus(patch: StatusPatch)
    | MarkGet(t: Ident)
    | MarkPut(t: Ident, tags: Tags)
    | MarkVerify(t: Ident)
    | FicGet(t: Ident)
    | FicPut(t: Ident)
    | FicVerify(t: Ident)
    | SaGet(t: Ident)
    | SaPut(t: Ident, sa: Sa)
    | SaVerify(t: Ident, saUid: Uid)
    | CommitRecovery(t: Ident, saUid: Uid)
    | CommitTarget(t: Ident, saUid: Uid)
    | CommitSa(t: Ident, saUid: Uid)
    | CommitGet(t: Ident)
    | CommitFics(t: Ident, stage: Stage, tags: Tags)
    | CommitPut(t: Ident, tags: Tags)
    | CommitVerify(t: Ident)
    | CommitFicsAfter(t: Ident)
    | FinalizeGet(t: Ident)
    | FinalizeFics(t: Ident, stage: Stage, tags: Tags)
    | FinalizePut(t: Ident, tags: Tags)
    | FinalizeVerify(t: Ident)
    | FinalizeFicsAfter(t: Ident)

  /** `deletion` remembers that the reconcile was entered through reconcileDelete. */
  datatype Worker = Idle | Busy(u: Uid, deletion: bool, at: At)

  /** What a call may return that the stores do not determine. */
  datatype Choice = Choice(
    issuer: Option<string>,       // the issuer URL, when the OIDCIssuer is ready
    configured: bool,             // the Azure manager is configured
    fails: bool,                  // the call of the normal reconciler fails
    uid: Uid,                     // a UID the API server hands out
    clientId: string, principalId: string, tenantId: string,
    outcome: Outcome)

  /** How a reconcile whose target uses another UAMI name goes on. */
  datatype Outcome = OutcomeInvalid | OutcomeBlocked | OutcomeAdvance(plan: Plan)

  function StageOf(st: Store, u: Uid, t: Ident): Option<Stage>
    requires u in st.recs
  {
    Load(st.uamiId, Req(st.recs[u]), t, st.recs[u].plan, st.uami)
  }

  /** The winner check of startRecovery and reconcileDelete answers "nobody else". */
  predicate Elected(recs: map<Uid, Recovery>, u: Uid)
    requires u in recs
  {
    Election.IsElected(recs.Values, recs[u].source, recs[u])
  }

  function Patching(u: Uid, del: bool, patch: StatusPatch): Worker { Busy(u, del, PatchStatus(patch)) }
  function Blocking(u: Uid, del: bool): Worker { Patching(u, del, PatchBlocked) }

  /** Reconcile: the branch taken on the recovery as it was read. */
  function Enter(r: Recovery, configured: bool): Worker {
    if r.deleting then
      if !r.finalizer then Idle
      else if !r.started then Busy(r.uid, true, ListForCancel)
      else if IsComplete(r) then Busy(r.uid, true, ReleaseCompleted(true))
      else if !configured then Blocking(r.uid, true)
      else Busy(r.uid, true, ReadTarget)
    else if !r.finalizer then Busy(r.uid, false, AddFinalizer)
    else if IsComplete(r) then Busy(r.uid, false, ReleaseCompleted(false))
    else if IsFailed(r) then Idle
    else if !configured then Blocking(r.uid, false)
    else Busy(r.uid, false, ReadTarget)
  }

  /** block when mutation has started, fail otherwise. */
  function Rejecting(r: Recovery, del: bool): Worker {
    Patching(r.uid, del, if r.started then PatchBlocked else PatchFailed)
  }

  /** reconcileForward after the target was read and validated. */
  function Forward(r: Recovery, del: bool, t: Ident): Worker {
    if r.commitVerified then
      if r.plan.None? then Blocking(r.uid, del) else Busy(r.uid, del, FinalizeGet(t))
    else if r.plan.None? then
      if r.started then Blocking(r.uid, del) else Busy(r.uid, del, PreIssuer(t))
    else if !r.started then Busy(r.uid, del, ListForStart)
    else Busy(r.uid, del, MarkGet(t))
  }

  function AfterReadTarget(st: Store, r: Recovery, del: bool): Worker {
    if r.target !in st.local then Busy(r.uid, del, Elsewhere)
    else if st.wi.None? || st.wi.value.id.key != r.key then Rejecting(r, del)
    else if Validate(r, st.wi.value) != TargetOk then Rejecting(r, del)
    else Forward(r, del, st.wi.value.id)
  }

  function AfterElsewhere(r: Recovery, del: bool, o: Outcome): Worker {
    match o
    case OutcomeInvalid => Rejecting(r, del)
    case OutcomeBlocked => Blocking(r.uid, del)
    case OutcomeAdvance(plan) =>
      if r.commitVerified then Patching(r.uid, del, PatchComplete)
      else if r.plan.None? then
        if r.started then Blocking(r.uid, del) else Patching(r.uid, del, PatchPlan(plan))
      else if !r.started then Busy(r.uid, del, ListForStart)
      else Patching(r.uid, del, PatchCommitVerified)
  }

  function AfterPreUami(st: Store, r: Recovery, del: bool, t: Ident, url: string): Worker {
    if st.uami.None? || !RecoverableUami(st.uamiId, t.key, st.uami.value) then Blocking(r.uid, del)
    else if RecoveryStage(Req(r), t.uid, st.uami.value).None? then Blocking(r.uid, del)
    else Busy(r.uid, del, PreFics(t, PlanFor(st.uami.value, url, Subject(t))))
  }

  function AfterStatus(u: Uid, del: bool, patch: StatusPatch): Worker {
    if del && patch == PatchComplete then Busy(u, del, ReleaseCompleted(true)) else Idle
  }

  function AfterMarkGet(st: Store, u: Uid, del: bool, t: Ident): Worker
    requires u in st.recs
  {
    match StageOf(st, u, t)
    case None => Blocking(u, del)
    case Some(s) => if s == NotStarted then Busy(u, del, MarkPut(t, st.uami.value.tags)) else Busy(u, del, FicGet(t))
  }

  function AfterFicGet(st: Store, u: Uid, del: bool, t: Ident): Worker
    requires u in st.recs
  {
    match StageOf(st, u, t)
    case None => Blocking(u, del)
    case Some(s) =>
      if s == NotStarted then Blocking(u, del)
      else if s == InProgress then Busy(u, del, FicPut(t))
      else Busy(u, del, FicVerify(t))
  }

  predicate FicsExact(st: Store, u: Uid, t: Ident)
    requires u in st.recs
  {
    st.recs[u].plan.Some? && ExactFics(st.uamiId, t, st.recs[u].plan.value.tuple, st.fics)
  }

  function AfterSaGet(st: Store, r: Recovery, del: bool, t: Ident): Worker {
    if st.sa.None? then Busy(r.uid, del, CommitRecovery(t, ""))
    else if r.plan.None? || !RecoverableSa(r.source, t.uid, st.sa.value) then Blocking(r.uid, del)
    else if Transferred(t.uid, r.plan.value, st.sa.value) == st.sa.value then Busy(r.uid, del, SaVerify(t, st.sa.value.uid))
    else Busy(r.uid, del, SaPut(t, st.sa.value))
  }

  function AfterSaVerify(st: Store, r: Recovery, del: bool, t: Ident, saUid: Uid): Worker {
    if st.sa.None? then Idle
    else if r.plan.Some? && st.sa.value.uid == saUid && FieldsMatch(t.uid, r.plan.value, st.sa.value) then
      Busy(r.uid, del, CommitRecovery(t, saUid))
    else Blocking(r.uid, del)
  }

  function AfterCommitTarget(st: Store, r: Recovery, del: bool, saUid: Uid): Worker {
    if st.wi.None? || st.wi.value.id.key != r.key then Idle
    else if Validate(r, st.wi.value) != TargetOk then Blocking(r.uid, del)
    else Busy(r.uid, del, CommitSa(st.wi.value.id, saUid))
  }

  function AfterCommitSa(st: Store, r: Recovery, del: bool, t: Ident, saUid: Uid): Worker {
    if st.sa.None? then (if saUid == "" then Busy(r.uid, del, CommitGet(t)) else Idle)
    else if saUid == "" then Blocking(r.uid, del)
    else if r.plan.None? || st.sa.value.uid != saUid || !FieldsMatch(t.uid, r.plan.value, st.sa.value) then Blocking(r.uid, del)
    else Busy(r.uid, del, CommitGet(t))
  }

  function AfterCommitGet(st: Store, u: Uid, del: bool, t: Ident): Worker
    requires u in st.recs
  {
    match StageOf(st, u, t)
    case None => Blocking(u, del)
    case Some(s) => if s == NotStarted then Blocking(u, del) else Busy(u, del, CommitFics(t, s, st.uami.value.tags))
  }

  function AfterCommitFics(st: Store, u: Uid, del: bool, t: Ident, s: Stage, tags: Tags): Worker
    requires u in st.recs
  {
    if st.uami.None? then Idle
    else if !FicsExact(st, u, t) then Blocking(u, del)
    else if s == CommittedFenced || s == Complete then Patching(u, del, PatchCommitVerified)
    else Busy(u, del, CommitPut(t, tags))
  }

  function AfterFinalizeGet(st: Store, u: Uid, del: bool, t: Ident): Worker
    requires u in st.recs
  {
    match StageOf(st, u, t)
    case None => Blocking(u, del)
    case Some(s) =>
      if s != CommittedFenced && s != Complete then Blocking(u, del)
      else Busy(u, del, FinalizeFics(t, s, st.uami.value.tags))
  }

  function AfterFinalizeFics(st: Store, u: Uid, del: bool, t: Ident, s: Stage, tags: Tags): Worker
    requires u in st.recs
  {
    if st.uami.None? then Idle
    else if !FicsExact(st, u, t) then Blocking(u, del)
    else if s == Complete then Patching(u, del, PatchComplete)
    else Busy(u, del, FinalizePut(t, tags))
  }

  /** verifyRecoveryStage. */
  function AfterVerify(st: Store, u: Uid, del: bool, t: Ident, expected: Stage, next: At): Worker
    requires u in st.recs
  {
    if StageOf(st, u, t) == Some(expected) then Busy(u, del, next) else Blocking(u, del)
  }

  function AfterExactFics(st: Store, u: Uid, del: bool, t: Ident, next: At): Worker
    requires u in st.recs
  {
    if st.uami.None? then Idle else if FicsExact(st, u, t) then Busy(u, del, next) else Blocking(u, del)
  }

  /** The one read-only call the worker makes at `at`. */
  function Read(st: Store, u: Uid, del: bool, at: At, c: Choice): Worker
    requires u in st.recs
  {
    var r := st.recs[u];
    match at
    case ReadTarget => AfterReadTarget(st, r, del)
    case Elsewhere => AfterElsewhere(r, del, c.outcome)
    case PreIssuer(t) => if c.issuer.None? then Blocking(u, del) else Busy(u, del, PreUami(t, c.issuer.value))
    case PreUami(t, url) => AfterPreUami(st, r, del, t, url)
    case PreFics(t, plan) =>
      if st.uami.None? then Idle
      else if RecoverableFics(st.uamiId, t, st.fics) then Busy(u, del, PreSa(t, plan))
      else Blocking(u, del)
    case PreSa(t, plan) =>
      if st.sa.Some? && !RecoverableSa(r.source, t.uid, st.sa.value) then Blocking(u, del) else Patching(u, del, PatchPlan(plan))
    case ListForStart => if Elected(st.recs, u) then Busy(u, del, LockTarget) else Patching(u, del, PatchFailed)
    case ListForCancel => if Elected(st.recs, u) then Busy(u, del, ReleaseCancelled) else Busy(u, del, RemoveFinalizer)
    case MarkGet(t) => AfterMarkGet(st, u, del, t)
    case MarkVerify(t) => AfterVerify(st, u, del, t, InProgress, FicGet(t))
    case FicGet(t) => AfterFicGet(st, u, del, t)
    case FicVerify(t) => AfterExactFics(st, u, del, t, SaGet(t))
    case SaGet(t) => AfterSaGet(st, r, del, t)
    case SaVerify(t, saUid) => AfterSaVerify(st, r, del, t, saUid)
    case CommitRecovery(t, saUid) => Busy(u, del, CommitTarget(t, saUid))
    case CommitTarget(t, saUid) => AfterCommitTarget(st, r, del, saUid)
    case CommitSa(t, saUid) => AfterCommitSa(st, r, del, t, saUid)
    case CommitGet(t) => AfterCommitGet(st, u, del, t)
    case CommitFics(t, s, tags) => AfterCommitFics(st, u, del, t, s, tags)
    case CommitVerify(t) => AfterVerify(st, u, del, t, CommittedFenced, CommitFicsAfter(t))
    case CommitFicsAfter(t) => AfterExactFics(st, u, del, t, PatchStatus(PatchCommitVerified))
    case FinalizeGet(t) => AfterFinalizeGet(st, u, del, t)
    case FinalizeFics(t, s, tags) => AfterFinalizeFics(st, u, del, t, s, tags)
    case FinalizeVerify(t) => AfterVerify(st, u, del, t, Complete, FinalizeFicsAfter(t))
    case FinalizeFicsAfter(t) => AfterExactFics(st, u, del, t, PatchStatus(PatchComplete))
    case _ => Idle
  }

  predicate IsWrite(at: At) {
    at.AddFinalizer? || at.LockTarget? || at.ReleaseCancelled? || at.ReleaseCompleted? || at.RemoveFinalizer? ||
    at.PatchStatus? || at.MarkPut? || at.FicPut? || at.SaPut? || at.CommitPut? || at.FinalizePut?
  }

  function PutTags(st: Store, tags: Tags): Store {
    if st.uami.None? then st else st.(uami := Some(st.uami.value.(tags := tags)))
  }

  function PatchedTarget(st: Store, u: Uid, from: set<Reason>, to: Reason): Store
    requires u in st.recs
  {
    st.(wi := PatchTarget(st.recs[u], st.wi, from, to, st.clock), clock := st.clock + 1)
  }

  function WriteSa(st: Store, r: Recovery, t: Ident, sa: Sa): Store {
    if st.sa.Some? && st.sa.value.version == sa.version && r.plan.Some? then
      st.(sa := Some(Transferred(t.uid, r.plan.value, sa).(version := st.clock)), clock := st.clock + 1)
    else st
  }

  function WriteFic(st: Store, r: Recovery, t: Ident): Store {
    if st.uami.Some? && r.plan.Some? then st.(fics := Upsert(st.uamiId, t.ficName, r.plan.value.tuple, st.fics)) else st
  }

  /** The one writing call the worker makes at `at`: the stores after it. */
  function Write(st: Store, u: Uid, at: At): Store
    requires u in st.recs
  {
    var r := st.recs[u];
    match at
    case AddFinalizer => st.(recs := st.recs[u := r.(finalizer := true)])
    case LockTarget => PatchedTarget(st, u, LOCK_FROM, ReasonRecoveryInProgress)
    case ReleaseCancelled => PatchedTarget(st, u, RELEASE_FROM, ReasonRecoveryCancelled)
    case ReleaseCompleted(_) => PatchedTarget(st, u, RELEASE_FROM, ReasonRecoveryCompleted)
    case RemoveFinalizer => st.(recs := st.recs - {u})
    case PatchStatus(patch) => st.(recs := st.recs[u := ApplyPatch(r, patch)])
    case MarkPut(t, tags) => PutTags(st, MergeTags(tags, FenceTags(Req(r), t.uid)))
    case FicPut(t) => WriteFic(st, r, t)
    case SaPut(t, sa) => WriteSa(st, r, t, sa)
    case CommitPut(t, tags) => PutTags(st, MergeTags(tags, CommitTags(Req(r), t.uid)))
    case FinalizePut(t, tags) => PutTags(st, WithoutFence(tags))
    case _ => st
  }

  /** Where the worker stands after the write. */
  function AfterWrite(st: Store, u: Uid, del: bool, at: At): Worker
    requires u in st.recs
  {
    match at
    case LockTarget => Patching(u, del, PatchStarted)
    case ReleaseCancelled => Busy(u, del, RemoveFinalizer)
    case ReleaseCompleted(remove) => if remove then Busy(u, del, RemoveFinalizer) else Idle
    case PatchStatus(patch) => AfterStatus(u, del, patch)
    case MarkPut(t, _) => if st.uami.None? then Idle else Busy(u, del, MarkVerify(t))
    case FicPut(t) => if st.uami.None? then Idle else Busy(u, del, FicVerify(t))
    case SaPut(t, sa) =>
      if st.sa.Some? && st.sa.value.version == sa.version then Busy(u, del, SaVerify(t, sa.uid)) else Idle
    case CommitPut(t, _) => if st.uami.None? then Idle else Busy(u, del, CommitVerify(t))
    case FinalizePut(t, _) => if st.uami.None? then Idle else Busy(u, del, FinalizeVerify(t))
    case _ => Idle
  }

  // ---------------------------------------------------------------- the normal reconciler

  datatype WiPatch =
    | ReadyPatch(provenance: Provenance, saUid: Uid, recorded: string)
    | RequiredPatch(evidence: Uid)
    | NotReadyPatch(reason: Reason)

  /** What Ensure returns about the UAMI. */
  datatype Managed = Managed(clientId: string, tenantId: string)

  datatype NAt =
    | NAddFinalizer
    | NIssuer
    | NInspect(url: string)
    | NDetect(owner: Uid)
    | NEnsure(state: SaState, url: string)
    | NCreate(state: SaState, url: string)
    | NFicGet(state: SaState, url: string, m: Managed)
    | NFicPut(state: SaState, url: string, m: Managed)
    | NSaGet(state: SaState, m: Managed)
    | NSaCreate(provenance: Provenance, m: Managed)
    | NSaPatch(provenance: Provenance, labels: Labels, annotations: Annotations)
    | NStatus(patch: WiPatch)
    | NDeleteGet
    | NDeleteUami
    | NDeleteSaGet
    | NDeleteSa
    | NRemoveFinalizer

  /** `w` is the reconciler's own copy of the WorkloadIdentity. */
  datatype Normal = NIdle | NBusy(w: Wi, at: NAt)

  function NotReady(w: Wi, name: string): Normal { NBusy(w, NStatus(NotReadyPatch(ReasonOther(name)))) }

  function NormalEnter(w: Wi): Normal {
    if w.deleting then
      if !w.finalizer || LockedWi(w) then NIdle
      else NBusy(w, if w.deletePolicy then NDeleteGet else NRemoveFinalizer)
    else if !w.finalizer then NBusy(w, NAddFinalizer)
    else if LockedWi(w) then NIdle
    else NBusy(w, NIssuer)
  }

  function ApplyWiPatch(w: Wi, p: WiPatch): Wi {
    match p
    case ReadyPatch(provenance, saUid, recorded) =>
      w.(evidence := None, ready := Some(Ready(StatusTrue, ReasonOther("Reconciled"), w.gen)),
         subject := Subject(w.id), saUid := saUid, provenance := Some(provenance), recorded := Some(recorded))
    case RequiredPatch(e) =>
      w.(evidence := Some(e), ready := Some(Ready(StatusFalse, ReasonRecoveryRequired, w.gen)))
    case NotReadyPatch(reason) =>
      w.(evidence := if reason == ReasonRecoveryInProgress then w.evidence else None,
         ready := Some(Ready(StatusFalse, reason, w.gen)))
  }

  /** The reconciler's copy is the stored object. */
  predicate Current(st: Store, w: Wi) { st.wi.Some? && st.wi.value.version == w.version }

  function AfterInspect(st: Store, w: Wi, url: string): Normal {
    match Inspect(w, st.sa)
    case Inspected(state) => NBusy(w, NEnsure(state, url))
    case ForeignOwner(owner) => NBusy(w, NDetect(owner))
    case SaConflict => NotReady(w, "ServiceAccountConflict")
  }

  function AfterDetect(st: Store, w: Wi, owner: Uid, c: Choice): Normal {
    if c.fails || st.uami.None? || !EqualFold(st.uami.value.id, st.uamiId) then NotReady(w, "ServiceAccountConflict")
    else
      match Classify(w.id, st.uami.value)
      case RecoveryRequired(e) => if e == owner then NBusy(w, NStatus(RequiredPatch(e))) else NotReady(w, "ServiceAccountConflict")
      case RecoveryInProgress => NBusy(w, NStatus(NotReadyPatch(ReasonRecoveryInProgress)))
      case Owned => NotReady(w, "ServiceAccountConflict")
      case OwnershipConflict => NotReady(w, "ServiceAccountConflict")
  }

  function AfterEnsure(st: Store, w: Wi, state: SaState, url: string, c: Choice): Normal {
    if c.fails then NotReady(w, "AzureEnsureFailed")
    else if st.uami.None? then
      if w.recorded.Some? && EqualFold(w.recorded.value, st.uamiId) then NotReady(w, "AzureResourceOwnershipConflict")
      else NBusy(w, NCreate(state, url))
    else
      match Classify(w.id, st.uami.value)
      case Owned => NBusy(w, NFicGet(state, url, Managed(st.uami.value.clientId, st.uami.value.tenantId)))
      case RecoveryRequired(e) => NBusy(w, NStatus(RequiredPatch(e)))
      case RecoveryInProgress => NBusy(w, NStatus(NotReadyPatch(ReasonRecoveryInProgress)))
      case OwnershipConflict => NotReady(w, "AzureResourceOwnershipConflict")
  }

  function NormalTuple(w: Wi, url: string): Tuple { Tuple(url, Subject(w.id), [AUDIENCE]) }

  function AfterNFicGet(st: Store, w: Wi, state: SaState, url: string, m: Managed, c: Choice): Normal {
    if c.fails then NotReady(w, "AzureEnsureFailed")
    else
      var found := FindFic(w.id.ficName, st.fics);
      if st.uami.Some? && found.Some? && found.value.tuple == Some(NormalTuple(w, url)) then NBusy(w, NSaGet(state, m))
      else NBusy(w, NFicPut(state, url, m))
  }

  function ReadyWith(st: Store, w: Wi, provenance: Provenance, saUid: Uid): Normal {
    NBusy(w, NStatus(ReadyPatch(provenance, saUid, st.uamiId)))
  }

  function AfterNSaGet(st: Store, w: Wi, state: SaState, m: Managed): Normal {
    match DecideEnsure(w, state, m.clientId, m.tenantId, st.sa)
    case CreateAccount(provenance) => NBusy(w, NSaCreate(provenance, m))
    case PatchAccount(provenance, labels, annotations) => NBusy(w, NSaPatch(provenance, labels, annotations))
    case KeepAccount(provenance, saUid) => ReadyWith(st, w, provenance, saUid)
    case RefuseAccount => NotReady(w, "ServiceAccountConflict")
  }

  function AfterDeleteGet(st: Store, w: Wi, c: Choice): Normal {
    if c.fails || !c.configured then NIdle
    else if st.uami.None? then NBusy(w, NDeleteSaGet)
    else
      match Classify(w.id, st.uami.value)
      case Owned => NBusy(w, NDeleteUami)
      case RecoveryRequired(_) => NBusy(w, NRemoveFinalizer)
      case RecoveryInProgress => NIdle
      case OwnershipConflict => NIdle
  }

  /** One read-only call of the normal reconciler. */
  function NormalRead(st: Store, w: Wi, at: NAt, c: Choice): Normal {
    match at
    case NIssuer =>
      if c.issuer.None? then (if RecoveryStateActive(w) then NIdle else NotReady(w, "OIDCIssuerNotReady"))
      else if !c.configured then NotReady(w, "ManagerNotConfigured")
      else NBusy(w, NInspect(c.issuer.value))
    case NInspect(url) => if c.fails then NotReady(w, "ServiceAccountReadFailed") else AfterInspect(st, w, url)
    case NDetect(owner) => AfterDetect(st, w, owner, c)
    case NEnsure(state, url) => AfterEnsure(st, w, state, url, c)
    case NFicGet(state, url, m) => AfterNFicGet(st, w, state, url, m, c)
    case NSaGet(state, m) => if c.fails then NotReady(w, "ServiceAccountEnsureFailed") else AfterNSaGet(st, w, state, m)
    case NDeleteGet => AfterDeleteGet(st, w, c)
    case NDeleteSaGet =>
      if st.sa.Some? && Deletable(w, st.sa.value) then NBusy(w, NDeleteSa) else NBusy(w, NRemoveFinalizer)
    case _ => NIdle
  }

  predicate IsNormalWrite(at: NAt) {
    at.NAddFinalizer? || at.NCreate? || at.NFicPut? || at.NSaCreate? || at.NSaPatch? || at.NStatus? ||
    at.NDeleteUami? || at.NDeleteSa? || at.NRemoveFinalizer?
  }

  function CreateUami(st: Store, w: Wi, c: Choice): Store {
    if st.uami.None? then
      st.(uami := Some(Uami(st.uamiId, c.clientId, c.principalId, c.tenantId, WorkloadIdentityTags(w.id))), fics := [])
    else PutTags(st, WorkloadIdentityTags(w.id))
  }

  function CreateSa(st: Store, w: Wi, provenance: Provenance, m: Managed, uid: Uid): Store {
    if st.sa.Some? then st
    else
      st.(sa := Some(Sa(uid, st.clock, DesiredLabels(w.id.uid, provenance == Created), DesiredAnnotations(m.clientId, m.tenantId))),
          clock := st.clock + 1)
  }

  /** A merge patch without a version check: it lands on whatever account has the name now. */
  function PatchSa(st: Store, labels: Labels, annotations: Annotations): Store {
    if st.sa.None? then st
    else
      st.(sa := Some(st.sa.value.(labels := st.sa.value.labels + labels, annotations := st.sa.value.annotations + annotations, version := st.clock)),
          clock := st.clock + 1)
  }

  function NormalWrite(st: Store, w: Wi, at: NAt, c: Choice): Store {
    match at
    case NAddFinalizer =>
      if Current(st, w) then st.(wi := Some(w.(finalizer := true, version := st.clock)), clock := st.clock + 1) else st
    case NCreate(_, _) => if c.fails then st else CreateUami(st, w, c)
    case NFicPut(_, url, _) =>
      if c.fails || st.uami.None? then st else st.(fics := Upsert(st.uamiId, w.id.ficName, NormalTuple(w, url), st.fics))
    case NSaCreate(provenance, m) => if c.fails then st else CreateSa(st, w, provenance, m, c.uid)
    case NSaPatch(_, labels, annotations) => if c.fails then st else PatchSa(st, labels, annotations)
    case NStatus(patch) =>
      if Current(st, w) then st.(wi := Some(ApplyWiPatch(w, patch).(version := st.clock)), clock := st.clock + 1) else st
    case NDeleteUami => st.(uami := None, fics := [])
    case NDeleteSa => st.(sa := None)
    case NRemoveFinalizer => if Current(st, w) then st.(wi := None) else st
    case _ => st
  }

  function AfterNormalWrite(st: Store, w: Wi, at: NAt, c: Choice): Normal {
    match at
    case NAddFinalizer =>
      if !Current(st, w) then NIdle
      else
        var w' := w.(finalizer := true, version := st.clock);
        if LockedWi(w') then NIdle else NBusy(w', NIssuer)
    case NCreate(state, url) =>
      if c.fails then NotReady(w, "AzureEnsureFailed") else NBusy(w, NFicGet(state, url, Managed(c.clientId, c.tenantId)))
    case NFicPut(state, _, m) => if c.fails || st.uami.None? then NotReady(w, "AzureEnsureFailed") else NBusy(w, NSaGet(state, m))
    case NSaCreate(provenance, _) =>
      if c.fails || st.sa.Some? then NotReady(w, "ServiceAccountEnsureFailed") else ReadyWith(st, w, provenance, c.uid)
    case NSaPatch(provenance, _, _) =>
      if c.fails || st.sa.None? then NotReady(w, "ServiceAccountEnsureFailed") else ReadyWith(st, w, provenance, st.sa.value.uid)
    case NDeleteUami => NBusy(w, NDeleteSaGet)
    case NDeleteSa => NBusy(w, NRemoveFinalizer)
    case _ => NIdle
  }

  // ---------------------------------------------------------------- actions and runs

  datatype State = State(st: Store, worker: Worker, normal: Normal)

  datatype Action =
    // the recovery worker: pick up a recovery, make the next call, die
    | WorkerBegin(u: Uid, c: Choice)
    | WorkerCall(c: Choice)
    | WorkerCrash
    // the normal reconciler
    | NormalBegin
    | NormalCall(c: Choice)
    | NormalCrash
    // users and outsiders
    | CreateWi(id: Ident, deletePolicy: bool)
    | EditWi(deletePolicy: bool, gen: nat)
    | DeleteWi
    | CreateRecovery(r: Recovery)
    | DeleteRecovery(u: Uid)
    | EditUnrelatedTags(tags: Tags)
    | EditCredentials(fics: seq<Fic>)
    | EditServiceAccount(sa: Option<Sa>)

  function StepWorker(s: State, c: Choice): State {
    if s.worker.Idle? then s
    else if s.worker.u !in s.st.recs then s.(worker := Idle)
    else
      var Busy(u, del, at) := s.worker;
      if IsWrite(at) then s.(st := Write(s.st, u, at), worker := AfterWrite(s.st, u, del, at))
      else s.(worker := Read(s.st, u, del, at, c))
  }

  function StepNormal(s: State, c: Choice): State {
    if s.normal.NIdle? then s
    else
      var NBusy(w, at) := s.normal;
      if IsNormalWrite(at) then s.(st := NormalWrite(s.st, w, at, c), normal := AfterNormalWrite(s.st, w, at, c))
      else s.(normal := NormalRead(s.st, w, at, c))
  }

  function FreshWi(st: Store, id: Ident, deletePolicy: bool): Wi {
    Wi(id, st.clock, 1, false, false, deletePolicy, None, None, "", "", None, None)
  }

  /** A recovery as the API server stores a new one: empty status, no finalizer. */
  predicate FreshRecovery(st: Store, r: Recovery) {
    r.uid != "" && r.uid !in st.used && r.source != "" && r.target != "" && r.source != r.target &&
    !r.finalizer && !r.deleting && !r.started && !r.commitVerified && r.plan.None? && r.conds == map[] &&
    forall u | u in st.recs :: st.recs[u].name != r.name
  }

  function StepDeleteRecovery(st: Store, u: Uid): Store {
    if u !in st.recs then st
    else if st.recs[u].finalizer then st.(recs := st.recs[u := st.recs[u].(deleting := true)])
    else st.(recs := st.recs - {u})
  }

  function StepDeleteWi(st: Store): Store {
    if st.wi.None? then st
    else if st.wi.value.finalizer then
      st.(wi := Some(st.wi.value.(deleting := true, gen := st.wi.value.gen + 1, version := st.clock)), clock := st.clock + 1)
    else st.(wi := None)
  }

  /** Tags after an outsider's edit: every key the operator gives a meaning to stays as it is. */
  function EditedTags(current: Tags, edit: Tags): Tags {
    (map k | k in edit && k.Other? :: edit[k]) + (map k | k in current && !k.Other? :: current[k])
  }

  /** Total: an action that is not possible in a state leaves it as it is. */
  function Apply(s: State, a: Action): State {
    match a
    case WorkerBegin(u, c) => if s.worker.Idle? && u in s.st.recs then s.(worker := Enter(s.st.recs[u], c.configured)) else s
    case WorkerCall(c) => StepWorker(s, c)
    case WorkerCrash => s.(worker := Idle)
    case NormalBegin => if s.normal.NIdle? && s.st.wi.Some? then s.(normal := NormalEnter(s.st.wi.value)) else s
    case NormalCall(c) => StepNormal(s, c)
    case NormalCrash => s.(normal := NIdle)
    case CreateWi(id, policy) =>
      if s.st.wi.None? && id.uid != "" && id.uid !in s.st.used then
        s.(st := s.st.(wi := Some(FreshWi(s.st, id, policy)), clock := s.st.clock + 1,
                       used := s.st.used + {id.uid}, local := s.st.local + {id.uid}))
      else s
    case EditWi(policy, gen) =>
      if s.st.wi.Some? then
        s.(st := s.st.(wi := Some(s.st.wi.value.(deletePolicy := policy, gen := gen, version := s.st.clock)), clock := s.st.clock + 1))
      else s
    case DeleteWi => s.(st := StepDeleteWi(s.st))
    case CreateRecovery(r) =>
      if FreshRecovery(s.st, r) then
        s.(st := s.st.(recs := s.st.recs[r.uid := r], used := s.st.used + {r.uid, r.source, r.target}))
      else s
    case DeleteRecovery(u) => s.(st := StepDeleteRecovery(s.st, u))
    case EditUnrelatedTags(tags) =>
      if s.st.uami.Some? then s.(st := PutTags(s.st, EditedTags(s.st.uami.value.tags, tags))) else s
    case EditCredentials(fics) => s.(st := s.st.(fics := fics))
    case EditServiceAccount(sa) =>
      s.(st := s.st.(sa := if sa.Some? then Some(sa.value.(version := s.st.clock)) else None, clock := s.st.clock + 1))
  }

  /** The state after a run: any finite sequence of actions, in any order. */
  ghost function Run(s: State, actions: seq<Action>): State
    decreases |actions|
  {
    if actions == [] then s else Apply(Run(s, actions[..|actions| - 1]), actions[|actions| - 1])
  }

  /** The operator is installed over whatever already exists under the name: possibly a UAMI
      retained from an earlier WorkloadIdentity, with no recovery under way. */
  ghost predicate Init(s: State) {
    s.worker.Idle? && s.normal.NIdle? && s.st.wi.None? && s.st.recs == map[] && s.st.local == {} &&
    (s.st.uami.Some? ==>
       Unfenced(s.st.uami.value) &&
       Owner(s.st.uami.value) in s.st.used + {""} && LastRecovery(s.st.uami.value) in s.st.used + {""}) &&
    (s.st.sa.Some? ==> s.st.sa.value.version < s.st.clock)
  }
}
