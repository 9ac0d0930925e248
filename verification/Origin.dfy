/** Where a ServiceAccount came from, over whole runs: as long as outsiders leave the operator's labels
    on it alone, every owner it ever gets records Created exactly when the operator made it. */
module Origin {
  import opened OwnershipTags
  import opened Azure
  import opened Resources
  import opened Target
  import opened ServiceAccounts
  import opened Protocol
  import opened Invariant
  import opened WorkerWrites
  import opened Safety
  import opened FenceTheorems
  import AccountTheorems
  import TagWrites

  predicate MadeByOperator(sa: Sa) { Label(sa, CreatedByLabel) == TRUE_VALUE }

  /** An account that some instance owns. */
  predicate Claimed(sa: Option<Sa>) { sa.Some? && Label(sa.value, OwnerLabel) != "" }

  // ---------------------------------------------------------------- what outsiders may do

  predicate SameOperatorLabels(a: Sa, b: Sa) {
    Label(a, OwnerLabel) == Label(b, OwnerLabel) && Label(a, ManagedByLabel) == Label(b, ManagedByLabel) &&
    Label(a, CreatedByLabel) == Label(b, CreatedByLabel)
  }

  /** An account that no operator label has ever touched. */
  predicate Clean(sa: Sa) {
    Label(sa, OwnerLabel) == "" && Label(sa, ManagedByLabel) == "" && Label(sa, CreatedByLabel) == ""
  }

  /** Outsiders edit an account without changing the operator's labels, and create clean ones; they do
      not delete. */
  predicate TameEdit(before: Option<Sa>, after: Option<Sa>) {
    if before.Some? then after.Some? && SameOperatorLabels(before.value, after.value)
    else after.Some? ==> Clean(after.value)
  }

  predicate Tame(s: State, a: Action) { a.EditServiceAccount? ==> TameEdit(s.st.sa, a.sa) }

  ghost predicate TameRun(s: State, actions: seq<Action>) {
    forall i | 0 <= i < |actions| :: Tame(Run(s, actions[..i]), actions[i])
  }

  // ---------------------------------------------------------------- the invariant

  /** The account is nobody else's, and if it is uid's its label says what p says. */
  predicate Agrees(sa: Option<Sa>, uid: Uid, p: Provenance) {
    Unforeign(sa, uid) && (sa.Some? && OwnedBy(uid, sa.value) ==> (p == Created <==> MadeByOperator(sa.value)))
  }

  predicate Unforeign(sa: Option<Sa>, uid: Uid) {
    sa.Some? ==> Label(sa.value, OwnerLabel) == "" || OwnedBy(uid, sa.value)
  }

  /** A live instance that has recorded a provenance owns its UAMI outright, and its account agrees. */
  predicate StoreOrigin(st: Store) {
    st.wi.Some? ==>
      (st.wi.value.subject != "" ==> Persisted(st.wi.value).Some?) &&
      (Persisted(st.wi.value).Some? ==>
         OwnedHere(st, st.wi.value) && Agrees(st.sa, st.wi.value.id.uid, Persisted(st.wi.value).value))
  }

  /** What an inspection settled, with the account as it is now. */
  predicate StateOrigin(sa: Option<Sa>, w: Wi, state: SaState) {
    Unforeign(sa, w.id.uid) &&
    match state
    case Established(p) =>
      Persisted(w).None? ==> sa.Some? && OwnedBy(w.id.uid, sa.value) && Agrees(sa, w.id.uid, p)
    case NotEstablished => Agrees(sa, w.id.uid, Adopted)
  }

  /** A pending patch makes the account w's with the label p, and changes no answer about an owned one. */
  predicate PatchOrigin(sa: Option<Sa>, w: Wi, p: Provenance, labels: Labels) {
    sa.Some? &&
    var patched := sa.value.(labels := sa.value.labels + labels);
    OwnedBy(w.id.uid, patched) && Agrees(Some(patched), w.id.uid, p) &&
    (Label(sa.value, OwnerLabel) != "" ==> OwnedBy(w.id.uid, sa.value) && Agrees(sa, w.id.uid, p))
  }

  predicate NormalOrigin(sa: Option<Sa>, n: Normal) {
    n.NBusy? ==>
      match n.at
      case NEnsure(state, _) => StateOrigin(sa, n.w, state)
      case NCreate(state, _) => StateOrigin(sa, n.w, state)
      case NFicGet(state, _, _) => StateOrigin(sa, n.w, state)
      case NFicPut(state, _, _) => StateOrigin(sa, n.w, state)
      case NSaGet(state, _) => StateOrigin(sa, n.w, state)
      case NSaPatch(p, labels, _) => PatchOrigin(sa, n.w, p, labels)
      case NStatus(patch) => patch.ReadyPatch? ==> Agrees(sa, n.w.id.uid, patch.provenance)
      case NDeleteSa => Claimed(sa) ==> MadeByOperator(sa.value)
      case _ => true
  }

  /** The worker's copy is the stored account or an outdated one, and it was recoverable. */
  predicate CopyOrigin(st: Store, source: Uid, target: Uid, copy: Sa) {
    copy.version < st.clock && (st.sa.Some? && st.sa.value.version == copy.version ==> st.sa.value == copy) &&
    RecoverableSa(source, target, copy)
  }

  predicate WorkerOrigin(st: Store, w: Worker) {
    w.Busy? && w.at.SaPut? && w.u in st.recs ==> CopyOrigin(st, st.recs[w.u].source, w.at.t.uid, w.at.sa)
  }

  ghost predicate Origin(s: State) {
    Inv(s) && StoreOrigin(s.st) && NormalOrigin(s.st.sa, s.normal) && WorkerOrigin(s.st, s.worker)
  }

  // ---------------------------------------------------------------- the transfer excludes an outright owner

  /** While the transfer is pending, the target does not own its UAMI outright: it has recorded nothing,
      and its normal reconciler stands before the ownership check. */
  lemma TransferIsExclusive(s: State)
    requires Inv(s) && s.worker.Busy? && s.worker.u in s.st.recs && s.worker.at.SaPut?
    ensures s.st.wi.Some? && s.worker.at.t == s.st.wi.value.id && !OwnedHere(s.st, s.st.wi.value)
    ensures s.st.recs[s.worker.u].target == s.worker.at.t.uid
    ensures s.st.recs[s.worker.u].plan.Some? && s.st.recs[s.worker.u].source != s.worker.at.t.uid && s.worker.at.t.uid != ""
  {
    RecordFacts(s.st, s.worker.u);
    assert Advancing(s.st, s.st.recs[s.worker.u], s.worker.at.t);
    hide Global;
    hide WorkerAt;
    hide NormalOk;
    hide CondsOk;
  }

  /** Past the ownership check the normal reconciler's copy owns its UAMI outright. */
  predicate PastOwnershipCheck(at: NAt) {
    at.NFicGet? || at.NFicPut? || at.NSaGet? || at.NSaCreate? || at.NSaPatch? || (at.NStatus? && at.patch.ReadyPatch?)
  }

  lemma PastCheckOwns(s: State)
    requires Inv(s) && s.normal.NBusy? && (PastOwnershipCheck(s.normal.at) || s.normal.at.NCreate? || s.normal.at.NDeleteSa?)
    ensures s.st.wi.Some? && s.st.wi.value.id == s.normal.w.id && OwnedHere(s.st, s.st.wi.value)
  {
    hide Global;
    hide WorkerOk;
    hide LockedWi;
    hide Unfenced;
    hide Persisted;
  }

  /** The copy under normal reconciliation knows the provenance that is stored. */
  lemma CopyKnowsProvenance(s: State)
    requires Inv(s) && s.normal.NBusy? && s.normal.at != NAddFinalizer
    ensures s.st.wi.Some? && s.st.wi.value.id == s.normal.w.id
    ensures Persisted(s.st.wi.value) == Persisted(s.normal.w) && s.st.wi.value.subject == s.normal.w.subject
  {
    hide Global;
    hide WorkerOk;
    hide NormalAt;
    hide LockedWi;
  }

  // ---------------------------------------------------------------- the worker's calls

  /** The copy to patch is the account that was just read and found recoverable. */
  lemma OnlySaGetLeadsToSaPut(st: Store, u: Uid, del: bool, at: At, c: Choice)
    requires u in st.recs && Read(st, u, del, at, c).Busy? && Read(st, u, del, at, c).at.SaPut?
    ensures var w := Read(st, u, del, at, c);
            at.SaGet? && st.sa == Some(w.at.sa) && w.at.t == at.t && w.u == st.recs[u].uid &&
            RecoverableSa(st.recs[u].source, at.t.uid, st.sa.value)
  {
    hide Load;
    hide Validate;
    hide ExactFics;
    hide RecoverableFics;
    hide RecoverableUami;
    hide RecoveryStage;
    hide FieldsMatch;
    hide Transferred;
    hide RecoverableSa;
    hide Elected;
    hide PlanFor;
  }

  lemma WorkerReadKeepsOrigin(s: State, c: Choice)
    requires Origin(s) && s.worker.Busy? && s.worker.u in s.st.recs && !IsWrite(s.worker.at)
    ensures Origin(StepWorker(s, c))
  {
    var Busy(u, del, at) := s.worker;
    WorkerCallKeeps(s, c);
    RecordFacts(s.st, u);
    assert s.st.sa.Some? ==> s.st.sa.value.version < s.st.clock;
    hide Inv;
    if Read(s.st, u, del, at, c).Busy? && Read(s.st, u, del, at, c).at.SaPut? {
      OnlySaGetLeadsToSaPut(s.st, u, del, at, c);
    }
    hide Read;
    hide StoreOrigin;
    hide NormalOrigin;
    hide RecoverableSa;
  }

  /** Tag writes of a recovery happen while the target owns nothing outright. */
  lemma TagWriteIsExclusive(s: State)
    requires Inv(s) && s.worker.Busy? && s.worker.u in s.st.recs && WritesTags(s.worker.at)
    ensures s.st.wi.Some? && !OwnedHere(s.st, s.st.wi.value)
  {
    RecordFacts(s.st, s.worker.u);
    BeforeMarkerMove(s.st, s.worker.u, s.worker.deletion, s.worker.at);
    var r := s.st.recs[s.worker.u];
    hide Inv;
    StagesAreDisjoint(Req(r), s.worker.at.t.uid, s.st.uami.value);
    TagWrites.LoadFacts(s.st.uamiId, Req(r), s.worker.at.t, r.plan, s.st.uami);
    hide Load;
    hide CondsOk;
    hide RecoveryStage;
    hide SameMarkers;
  }

  /** A write of the worker other than the transfer leaves the account alone, and of the target it
      changes the Ready condition at most. */
  lemma OtherWritesSpare(st: Store, u: Uid, at: At)
    requires u in st.recs && IsWrite(at) && !at.SaPut?
    ensures var st' := Write(st, u, at);
            st'.sa == st.sa && st.clock <= st'.clock &&
            (!WritesTags(at) ==> st'.uami == st.uami) &&
            (if st.wi.None? then st'.wi.None?
             else st'.wi.Some? && st'.wi.value == st.wi.value.(ready := st'.wi.value.ready, version := st'.wi.value.version))
  {
    hide MergeTags;
    hide WithoutFence;
    hide Upsert;
    hide PatchConds;
  }

  /** What a store records of its instance does not depend on the Ready condition. */
  lemma ReadyIsIrrelevant(st: Store, st': Store)
    requires StoreOrigin(st) && st'.sa == st.sa
    requires st.wi.Some? && st'.wi.Some? ==>
               st'.wi.value == st.wi.value.(ready := st'.wi.value.ready, version := st'.wi.value.version, deleting := st'.wi.value.deleting,
                                            deletePolicy := st'.wi.value.deletePolicy, gen := st'.wi.value.gen,
                                            finalizer := st'.wi.value.finalizer, evidence := st'.wi.value.evidence)
    requires st'.wi.Some? ==> st.wi.Some?
    requires st'.wi.Some? && Persisted(st.wi.value).Some? ==> OwnedHere(st, st.wi.value) ==> OwnedHere(st', st'.wi.value)
    ensures StoreOrigin(st')
  {
    hide OwnedHere;
    hide Agrees;
  }

  lemma WorkerWriteKeepsOrigin(s: State, c: Choice)
    requires Origin(s) && s.worker.Busy? && s.worker.u in s.st.recs && IsWrite(s.worker.at) && !s.worker.at.SaPut?
    ensures Origin(StepWorker(s, c))
  {
    hide Inv;
    hide StoreOrigin;
    hide NormalOrigin;
    hide Persisted;
    WorkerCallKeeps(s, c);
    var Busy(u, del, at) := s.worker;
    OtherWritesSpare(s.st, u, at);
    NoTransferAfterWrite(s.st, u, del, at);
    if WritesTags(at) {
      TagWriteIsExclusive(s);
      NothingRecorded(s);
    }
    ReadyIsIrrelevant(s.st, StepWorker(s, c).st);
    hide Write;
    hide AfterWrite;
    hide CopyOrigin;
  }

  lemma NothingRecorded(s: State)
    requires Origin(s) && s.st.wi.Some? && !OwnedHere(s.st, s.st.wi.value)
    ensures Persisted(s.st.wi.value).None? && s.st.wi.value.subject == ""
  {
    hide Inv;
    hide OwnedHere;
    hide Persisted;
    hide Agrees;
  }

  lemma NoTransferAfterWrite(st: Store, u: Uid, del: bool, at: At)
    requires u in st.recs && IsWrite(at)
    ensures AfterWrite(st, u, del, at).Busy? ==> !AfterWrite(st, u, del, at).at.SaPut?
  {
  }

  /** The transfer moves the account to the target with its origin unchanged. */
  lemma TransferKeepsLabel(copy: Sa, target: Uid, plan: Plan, version: nat)
    ensures var sa := Transferred(target, plan, copy).(version := version);
            Label(sa, OwnerLabel) == target && Label(sa, CreatedByLabel) == Label(copy, CreatedByLabel)
  {
  }

  /** An inspection's outcome stays right when the account it left unforeign is transferred to w. */
  lemma TransferKeepsState(copy: Sa, moved: Sa, source: Uid, w: Wi, state: SaState)
    requires StateOrigin(Some(copy), w, state) && RecoverableSa(source, w.id.uid, copy) && Persisted(w).None?
    requires Label(moved, OwnerLabel) == w.id.uid && Label(moved, CreatedByLabel) == Label(copy, CreatedByLabel)
    requires source != w.id.uid && source != "" && w.id.uid != ""
    ensures StateOrigin(Some(moved), w, state)
  {
    hide Persisted;
  }

  /** The stores after the transfer and the reconcile in flight still agree. */
  lemma TransferSuitsNormal(s: State, moved: Sa)
    requires Origin(s) && s.worker.Busy? && s.worker.u in s.st.recs && s.worker.at.SaPut?
    requires s.st.sa == Some(s.worker.at.sa) && Label(moved, OwnerLabel) == s.worker.at.t.uid
    requires Label(moved, CreatedByLabel) == Label(s.worker.at.sa, CreatedByLabel)
    ensures NormalOrigin(Some(moved), s.normal)
  {
    hide Inv;
    hide OwnedHere;
    hide StateOrigin;
    hide PatchOrigin;
    hide Agrees;
    hide RecoverableSa;
    RecordFactsOf(s, s.worker.u);
    TransferIsExclusive(s);
    NothingRecorded(s);
    if s.normal.NBusy? && (PastOwnershipCheck(s.normal.at) || s.normal.at.NCreate? || s.normal.at.NDeleteSa?) {
      PastCheckOwns(s);
    } else if s.normal.NBusy? && s.normal.at.NEnsure? {
      CopyKnowsProvenance(s);
      hide Persisted;
      TransferKeepsState(s.worker.at.sa, moved, s.st.recs[s.worker.u].source, s.normal.w, s.normal.at.state);
    }
    hide Persisted;
  }

  lemma RecordFactsOf(s: State, u: Uid)
    requires Inv(s) && u in s.st.recs
    ensures s.st.recs[u].source != "" && s.st.recs[u].uid == u && (s.st.sa.Some? ==> s.st.sa.value.version < s.st.clock)
  {
    RecordFacts(s.st, u);
    hide MarkersOk;
    hide EvidenceOk;
    hide RecordsOk;
    hide WorkerOk;
    hide NormalOk;
    hide SourceHeld;
  }

  lemma TransferKeepsOrigin(s: State, c: Choice)
    requires Origin(s) && s.worker.Busy? && s.worker.u in s.st.recs && s.worker.at.SaPut?
    ensures Origin(StepWorker(s, c))
  {
    hide Inv;
    hide Transferred;
    hide OwnedHere;
    hide NormalOrigin;
    hide Agrees;
    hide Persisted;
    hide RecoverableSa;
    var s' := StepWorker(s, c);
    var Busy(u, del, at) := s.worker;
    WorkerCallKeeps(s, c);
    TransferIsExclusive(s);
    NothingRecorded(s);
    NoTransferAfterWrite(s.st, u, del, at);
    TransferKeepsLabel(at.sa, at.t.uid, s.st.recs[u].plan.value, s.st.clock);
    if s'.st.sa != s.st.sa {
      TransferSuitsNormal(s, s'.st.sa.value);
    }
    hide AfterWrite;
  }

  // ---------------------------------------------------------------- the normal reconciler's calls

  lemma InspectionIsRight(w: Wi, sa: Option<Sa>)
    requires w.subject != "" ==> Persisted(w).Some?
    ensures Inspect(w, sa).Inspected? ==> StateOrigin(sa, w, Inspect(w, sa).state)
  {
  }

  /** What the account of w has to say once a provenance is on record. */
  predicate RecordedAgrees(sa: Option<Sa>, w: Wi) {
    Persisted(w).Some? ==> Agrees(sa, w.id.uid, Persisted(w).value)
  }

  /** The decision of ensureServiceAccount writes a label that agrees with the provenance it reports. */
  lemma DecisionIsRight(w: Wi, state: SaState, m: Managed, sa: Option<Sa>)
    requires StateOrigin(sa, w, state) && KeepsState(w, state) && RecordedAgrees(sa, w) && w.id.uid != ""
    ensures var d := DecideEnsure(w, state, m.clientId, m.tenantId, sa);
            (d.PatchAccount? ==> PatchOrigin(sa, w, d.provenance, d.labels)) &&
            (d.KeepAccount? ==> Agrees(sa, w.id.uid, d.provenance))
  {
    hide Persisted;
    if sa.Some? {
      var p := if state.Established? then state.provenance else Adopted;
      var desired := DesiredLabels(w.id.uid, p == Created);
      ChangedCompletes(sa.value.labels, desired);
      LabelsDesired(sa.value, w.id.uid, p);
      hide DesiredLabels;
      hide DesiredAnnotations;
      hide Changed;
    }
  }

  lemma LabelsDesired(sa: Sa, uid: Uid, p: Provenance)
    requires uid != ""
    ensures var after := sa.(labels := sa.labels + DesiredLabels(uid, p == Created));
            OwnedBy(uid, after) && (MadeByOperator(after) <==> p == Created)
  {
    var desired := DesiredLabels(uid, p == Created);
    assert (sa.labels + desired)[OwnerLabel] == uid && (sa.labels + desired)[CreatedByLabel] == FormatBool(p == Created);
  }

  /** In a state with the invariant the copy under reconciliation agrees with its account. */
  lemma CopyAgrees(s: State)
    requires Origin(s) && s.normal.NBusy? && s.normal.at != NAddFinalizer
    ensures RecordedAgrees(s.st.sa, s.normal.w) && (s.normal.w.subject != "" ==> Persisted(s.normal.w).Some?)
    ensures s.normal.w.id.uid != "" && (Persisted(s.normal.w).Some? ==> OwnedHere(s.st, s.normal.w))
  {
    CopyKnowsProvenance(s);
    assert s.st.wi.value.id.uid != "";
    hide Inv;
    hide Persisted;
    hide Agrees;
    hide Unfenced;
  }

  lemma NormalReadKeepsOrigin(s: State, c: Choice)
    requires Origin(s) && s.normal.NBusy? && !IsNormalWrite(s.normal.at)
    ensures NormalOrigin(s.st.sa, NormalRead(s.st, s.normal.w, s.normal.at, c))
  {
    hide Inv;
    var NBusy(w, at) := s.normal;
    CopyAgrees(s);
    hide RecordedAgrees;
    hide Agrees;
    hide StateOrigin;
    hide PatchOrigin;
    hide Persisted;
    hide Classify;
    hide Inspect;
    hide DecideEnsure;
    hide FindFic;
    hide StoreOrigin;
    hide WorkerOrigin;
    match at
    case NInspect(_) => InspectionIsRight(w, s.st.sa);
    case NSaGet(state, m) =>
      StateIsKept(s, state);
      DecisionIsRight(w, state, m, s.st.sa);
    case _ =>
  }

  lemma StateIsKept(s: State, state: SaState)
    requires Inv(s) && s.normal.NBusy? && s.normal.at.NSaGet? && s.normal.at.state == state
    ensures KeepsState(s.normal.w, state)
  {
    hide Global;
    hide WorkerOk;
    hide Pinned;
    hide Persisted;
  }

  // ---- writes

  lemma CreatedAccountAgrees(uid: Uid, id: Uid, p: Provenance, m: Managed, version: nat)
    requires id != ""
    ensures var sa := Sa(uid, version, DesiredLabels(id, p == Created), DesiredAnnotations(m.clientId, m.tenantId));
            OwnedBy(id, sa) && (MadeByOperator(sa) <==> p == Created)
  {
    var labels := DesiredLabels(id, p == Created);
    assert labels[OwnerLabel] == id && labels[CreatedByLabel] == FormatBool(p == Created);
  }

  /** What the normal reconciler is about to do to the account. */
  predicate WritesAccount(at: NAt) { at.NSaCreate? || at.NSaPatch? }

  lemma PatchAppliesLabels(st: Store, labels: Labels, annotations: Annotations)
    requires st.sa.Some?
    ensures var sa' := PatchSa(st, labels, annotations).sa.value;
            forall k :: Label(sa', k) == Label(st.sa.value.(labels := st.sa.value.labels + labels), k)
  {
  }

  /** The account after one of its writes, whoever is in the middle of what. */
  lemma AccountWriteAgrees(s: State, c: Choice)
    requires Origin(s) && s.normal.NBusy? && WritesAccount(s.normal.at)
    ensures var w, at := s.normal.w, s.normal.at;
            var st' := NormalWrite(s.st, w, at, c);
            NormalOrigin(st'.sa, AfterNormalWrite(s.st, w, at, c)) && (st'.sa != s.st.sa ==> Agrees(st'.sa, w.id.uid, at.provenance)) &&
            (Persisted(w).Some? ==> at.provenance == Persisted(w).value)
  {
    var NBusy(w, at) := s.normal;
    CopyAgrees(s);
    ProvenanceIsKept(s);
    hide Inv;
    hide Persisted;
    if at.NSaCreate? {
      CreatedAccountAgrees(c.uid, w.id.uid, at.provenance, at.m, s.st.clock);
      hide DesiredLabels;
    } else {
      PatchAppliesLabels(s.st, at.labels, at.annotations);
    }
    hide Label;
    hide WorkerOrigin;
    hide StoreOrigin;
    hide RecordedAgrees;
  }

  lemma ProvenanceIsKept(s: State)
    requires Inv(s) && s.normal.NBusy? && WritesAccount(s.normal.at)
    ensures Persisted(s.normal.w).Some? ==> s.normal.at.provenance == Persisted(s.normal.w).value
  {
    hide Global;
    hide WorkerOk;
    hide Pinned;
    hide Persisted;
  }

  lemma AccountWriteKeepsOrigin(s: State, c: Choice)
    requires Origin(s) && s.normal.NBusy? && WritesAccount(s.normal.at)
    ensures Origin(StepNormal(s, c))
  {
    NormalCallKeeps(s, c);
    AccountWriteAgrees(s, c);
    CopyKnowsProvenance(s);
    PastCheckOwns(s);
    if s.worker.Busy? && s.worker.u in s.st.recs && s.worker.at.SaPut? {
      TransferIsExclusive(s);
    }
    hide Inv;
    hide Persisted;
    hide Agrees;
    hide NormalOrigin;
    hide AfterNormalWrite;
    hide DesiredLabels;
    hide DesiredAnnotations;
    hide Unfenced;
  }

  /** The Ready patch records what the account says; no other status patch records anything. */
  lemma StatusKeepsStoreOrigin(s: State, patch: WiPatch)
    requires Origin(s) && s.normal.NBusy? && s.normal.at == NStatus(patch) && Current(s.st, s.normal.w)
    ensures StoreOrigin(s.st.(wi := Some(ApplyWiPatch(s.normal.w, patch).(version := s.st.clock)), clock := s.st.clock + 1))
  {
    assert s.st.wi.value == s.normal.w && StatusAt(s.st, s.normal.w, patch);
    hide Inv;
    hide Unfenced;
    hide Agrees;
    SubjectIsSomething(s.normal.w.id);
    hide Subject;
  }

  lemma SubjectIsSomething(t: Ident)
    ensures Subject(t) != ""
  {
  }

  lemma StatusWriteKeepsOrigin(s: State, c: Choice)
    requires Origin(s) && s.normal.NBusy? && s.normal.at.NStatus?
    ensures Origin(StepNormal(s, c))
  {
    hide Inv;
    hide StoreOrigin;
    hide ApplyWiPatch;
    NormalCallKeeps(s, c);
    if Current(s.st, s.normal.w) {
      StatusKeepsStoreOrigin(s, s.normal.at.patch);
    }
    hide NormalOrigin;
    hide RecoverableSa;
  }

  /** Writes of the normal reconciler that touch neither the account's contents nor the status. */
  predicate SparesOrigin(at: NAt) {
    at.NAddFinalizer? || at.NCreate? || at.NFicPut? || at.NDeleteUami? || at.NDeleteSa? || at.NRemoveFinalizer?
  }

  lemma FinalizerKeepsStoreOrigin(s: State)
    requires Origin(s) && s.normal.NBusy? && s.normal.at.NAddFinalizer? && Current(s.st, s.normal.w)
    ensures StoreOrigin(s.st.(wi := Some(s.normal.w.(finalizer := true, version := s.st.clock)), clock := s.st.clock + 1))
  {
    assert s.st.wi.value == s.normal.w;
    hide Inv;
    ReadyIsIrrelevant(s.st, s.st.(wi := Some(s.normal.w.(finalizer := true, version := s.st.clock)), clock := s.st.clock + 1));
    hide StoreOrigin;
  }

  lemma UamiWriteKeepsStoreOrigin(s: State, c: Choice)
    requires Origin(s) && s.normal.NBusy? && (s.normal.at.NCreate? || s.normal.at.NDeleteUami?)
    ensures StoreOrigin(NormalWrite(s.st, s.normal.w, s.normal.at, c))
  {
    CopyKnowsProvenance(s);
    CreatedIsOwned(s.normal.w.id);
    assert s.normal.at.NCreate? ==> s.st.uami.None?;
    hide Inv;
    hide WorkloadIdentityTags;
    hide Persisted;
    hide Agrees;
  }

  lemma CreatedIsOwned(t: Ident)
    ensures TagValue(WorkloadIdentityTags(t), OwnerUid) == t.uid && TagValue(WorkloadIdentityTags(t), RecoveryUid) == "" &&
            TagValue(WorkloadIdentityTags(t), TargetUid) == ""
  {
  }

  /** Of the account and the clock, those writes change nothing or remove the account. */
  lemma SparingWriteSpares(st: Store, w: Wi, at: NAt, c: Choice)
    requires SparesOrigin(at)
    ensures var st' := NormalWrite(st, w, at, c);
            (st'.sa == st.sa || (at.NDeleteSa? && st'.sa.None?)) && st.clock <= st'.clock && st'.recs == st.recs
    ensures (at.NFicPut? || at.NDeleteSa?) ==> NormalWrite(st, w, at, c).wi == st.wi && NormalWrite(st, w, at, c).uami == st.uami
    ensures at.NRemoveFinalizer? ==> NormalWrite(st, w, at, c) == st || NormalWrite(st, w, at, c).wi.None?
  {
    hide Upsert;
    hide WorkloadIdentityTags;
  }

  lemma PositionAfterSparingWrite(st: Store, w: Wi, at: NAt, c: Choice)
    requires SparesOrigin(at) && NormalOrigin(st.sa, NBusy(w, at))
    ensures NormalOrigin(NormalWrite(st, w, at, c).sa, AfterNormalWrite(st, w, at, c))
  {
    hide Upsert;
    hide WorkloadIdentityTags;
    hide StateOrigin;
    hide LockedWi;
    hide PatchOrigin;
  }

  lemma SparingWriteKeepsOrigin(s: State, c: Choice)
    requires Origin(s) && s.normal.NBusy? && SparesOrigin(s.normal.at)
    ensures Origin(StepNormal(s, c))
  {
    hide Inv;
    hide NormalOrigin;
    hide Persisted;
    hide Unfenced;
    hide RecoverableSa;
    hide AfterNormalWrite;
    NormalCallKeeps(s, c);
    SparingWriteSpares(s.st, s.normal.w, s.normal.at, c);
    PositionAfterSparingWrite(s.st, s.normal.w, s.normal.at, c);
    match s.normal.at
    case NAddFinalizer =>
      if Current(s.st, s.normal.w) {
        FinalizerKeepsStoreOrigin(s);
      }
      hide StoreOrigin;
    case NCreate(_, _) => UamiWriteKeepsStoreOrigin(s, c); hide StoreOrigin; hide NormalWrite;
    case NDeleteUami => UamiWriteKeepsStoreOrigin(s, c); hide StoreOrigin; hide NormalWrite;
    case _ => hide NormalWrite;
  }

  lemma NormalCallKeepsOrigin(s: State, c: Choice)
    requires Origin(s)
    ensures Origin(StepNormal(s, c))
  {
    hide Inv;
    hide StoreOrigin;
    hide NormalOrigin;
    hide WorkerOrigin;
    if s.normal.NBusy? {
      if !IsNormalWrite(s.normal.at) {
        NormalCallKeeps(s, c);
        NormalReadKeepsOrigin(s, c);
      } else if WritesAccount(s.normal.at) {
        AccountWriteKeepsOrigin(s, c);
      } else if s.normal.at.NStatus? {
        StatusWriteKeepsOrigin(s, c);
      } else {
        SparingWriteKeepsOrigin(s, c);
      }
    }
    hide NormalRead;
    hide NormalWrite;
    hide AfterNormalWrite;
  }

  lemma WorkerCallKeepsOrigin(s: State, c: Choice)
    requires Origin(s)
    ensures Origin(StepWorker(s, c))
  {
    hide StoreOrigin;
    hide NormalOrigin;
    hide Inv;
    WorkerCallKeeps(s, c);
    if s.worker.Busy? && s.worker.u in s.st.recs {
      if !IsWrite(s.worker.at) {
        WorkerReadKeepsOrigin(s, c);
      } else if s.worker.at.SaPut? {
        TransferKeepsOrigin(s, c);
      } else {
        WorkerWriteKeepsOrigin(s, c);
      }
    }
    hide Read;
    hide Write;
    hide AfterWrite;
    hide CopyOrigin;
  }

  // ---------------------------------------------------------------- users and outsiders

  /** A tame edit changes no answer anybody relies on. */
  lemma TameKeepsNormal(before: Option<Sa>, after: Option<Sa>, n: Normal)
    requires TameEdit(before, after) && NormalOrigin(before, n) && (n.NBusy? && n.at != NAddFinalizer ==> n.w.id.uid != "")
    ensures NormalOrigin(after, n)
  {
    hide Persisted;
  }

  lemma TameKeepsStore(st: Store, sa: Option<Sa>, clock: nat)
    requires TameEdit(st.sa, sa) && StoreOrigin(st) && (st.wi.Some? ==> st.wi.value.id.uid != "")
    ensures StoreOrigin(st.(sa := sa, clock := clock))
  {
    hide Persisted;
    hide Unfenced;
  }

  lemma NamesAreReal(s: State)
    requires Inv(s)
    ensures s.st.wi.Some? ==> s.st.wi.value.id.uid != ""
    ensures s.normal.NBusy? && s.normal.at != NAddFinalizer ==> s.normal.w.id.uid != ""
  {
    hide MarkersOk;
    hide EvidenceOk;
    hide RecordsOk;
    hide WorkerOk;
    hide NormalAt;
    hide LockedWi;
  }

  lemma TameEditKeepsOrigin(s: State, a: Action)
    requires Origin(s) && a.EditServiceAccount? && Tame(s, a)
    ensures Origin(Apply(s, a))
  {
    ActionKeeps(s, a);
    hide Inv;
    hide StoreOrigin;
    hide NormalOrigin;
    hide RecoverableSa;
    var s' := Apply(s, a);
    assert TameEdit(s.st.sa, s'.st.sa);
    hide TameEdit;
    NamesAreReal(s);
    TameKeepsStore(s.st, s'.st.sa, s'.st.clock);
    TameKeepsNormal(s.st.sa, s'.st.sa, s.normal);
  }

  /** What the other actions leave alone. */
  lemma UsersSpare(s: State, a: Action)
    requires !a.WorkerCall? && !a.NormalCall? && !a.EditServiceAccount?
    ensures var s' := Apply(s, a);
            s'.st.sa == s.st.sa && s.st.clock <= s'.st.clock &&
            (s'.worker == s.worker || s'.worker.Idle? || !s'.worker.at.SaPut?) && NormalOrigin(s'.st.sa, s.normal) == NormalOrigin(s.st.sa, s.normal) &&
            (s'.normal == s.normal || NormalOrigin(s'.st.sa, s'.normal)) &&
            (forall u | u in s.st.recs && u in s'.st.recs && u in s.st.used :: s'.st.recs[u].source == s.st.recs[u].source)
  {
    hide StateOrigin;
    hide PatchOrigin;
    hide Agrees;
    hide EditedTags;
    hide LockedWi;
  }

  lemma UsersKeepStoreOrigin(s: State, a: Action)
    requires Origin(s) && !a.WorkerCall? && !a.NormalCall? && !a.EditServiceAccount?
    ensures StoreOrigin(Apply(s, a).st)
  {
    hide Inv;
    hide Persisted;
    hide Agrees;
    match a
    case EditUnrelatedTags(tags) =>
      if s.st.uami.Some? {
        EditsKeepMarkers(s.st.uami.value.tags, tags);
        MarkersAreSame(s.st, EditedTags(s.st.uami.value.tags, tags));
      }
      hide EditedTags;
      hide Owner;
      hide Fence;
      hide FenceTarget;
    case CreateWi(_, _) => NewInstanceHasNothing(s.st);
    case EditWi(_, _) => ReadyIsIrrelevant(s.st, Apply(s, a).st); hide StoreOrigin;
    case DeleteWi => ReadyIsIrrelevant(s.st, Apply(s, a).st); hide StoreOrigin;
    case _ => hide Enter; hide NormalEnter; hide Unfenced; hide Owner;
  }

  lemma NewInstanceHasNothing(st: Store)
    ensures forall id, policy :: Persisted(FreshWi(st, id, policy)).None? && FreshWi(st, id, policy).subject == ""
  {
  }

  lemma UsersKeepOrigin(s: State, a: Action)
    requires Origin(s) && !a.WorkerCall? && !a.NormalCall? && !a.EditServiceAccount?
    ensures Origin(Apply(s, a))
  {
    ActionKeeps(s, a);
    UsersSpare(s, a);
    UsersKeepStoreOrigin(s, a);
    KnownRecords(s);
    hide Inv;
    hide Apply;
    hide StoreOrigin;
    hide NormalOrigin;
    hide RecoverableSa;
  }

  lemma KnownRecords(s: State)
    requires Inv(s)
    ensures forall u | u in s.st.recs :: u in s.st.used
    ensures s.worker.Busy? && s.worker.at.SaPut? ==> s.worker.u in s.st.recs
  {
    hide NormalOk;
    hide MarkersOk;
    hide EvidenceOk;
    hide WorkerAt;
  }

  // ---------------------------------------------------------------- every tame run

  lemma ActionKeepsOrigin(s: State, a: Action)
    requires Origin(s) && Tame(s, a)
    ensures Origin(Apply(s, a))
  {
    hide Origin;
    match a
    case WorkerCall(c) => WorkerCallKeepsOrigin(s, c);
    case NormalCall(c) => NormalCallKeepsOrigin(s, c);
    case EditServiceAccount(_) => TameEditKeepsOrigin(s, a);
    case _ => UsersKeepOrigin(s, a); hide Apply;
  }

  lemma {:induction false} TameRunsKeepOrigin(s: State, actions: seq<Action>)
    requires Origin(s) && TameRun(s, actions)
    ensures Origin(Run(s, actions))
    decreases |actions|
  {
    hide Origin;
    hide Apply;
    hide Tame;
    if actions != [] {
      var n := |actions| - 1;
      assert forall i | 0 <= i < n :: actions[..n][..i] == actions[..i];
      TameRunsKeepOrigin(s, actions[..n]);
      ActionKeepsOrigin(Run(s, actions[..n]), actions[n]);
    }
  }

  lemma InitHasOrigin(s: State)
    requires Init(s)
    ensures Origin(s)
  {
    InitEstablishes(s);
    hide Inv;
  }

  // ---------------------------------------------------------------- the chain

  /** One action keeps a claimed account claimed, and keeps where it came from. */
  lemma OriginStep(s: State, a: Action)
    requires Origin(s) && Tame(s, a) && Claimed(s.st.sa) && Apply(s, a).st.sa.Some?
    ensures Claimed(Apply(s, a).st.sa) && (MadeByOperator(Apply(s, a).st.sa.value) <==> MadeByOperator(s.st.sa.value))
  {
    match a
    case WorkerCall(c) => WorkerOriginStep(s, c); hide StepWorker; hide Origin;
    case NormalCall(c) => NormalOriginStep(s, c); hide StepNormal; hide Origin;
    case EditServiceAccount(_) => hide Origin;
    case _ => UsersSpare(s, a); hide Apply; hide Origin;
  }

  lemma WorkerOriginStep(s: State, c: Choice)
    requires Origin(s) && Claimed(s.st.sa)
    ensures Claimed(StepWorker(s, c).st.sa) && (MadeByOperator(StepWorker(s, c).st.sa.value) <==> MadeByOperator(s.st.sa.value))
  {
    hide StoreOrigin;
    hide NormalOrigin;
    hide Inv;
    hide Transferred;
    if s.worker.Busy? && s.worker.u in s.st.recs && IsWrite(s.worker.at) {
      if s.worker.at.SaPut? {
        TransferIsExclusive(s);
        TransferKeepsLabel(s.worker.at.sa, s.worker.at.t.uid, s.st.recs[s.worker.u].plan.value, s.st.clock);
      } else {
        OtherWritesSpare(s.st, s.worker.u, s.worker.at);
        hide Write;
      }
    }
    hide Read;
    hide AfterWrite;
    hide RecoverableSa;
  }

  lemma NormalOriginStep(s: State, c: Choice)
    requires Origin(s) && Claimed(s.st.sa) && StepNormal(s, c).st.sa.Some?
    ensures Claimed(StepNormal(s, c).st.sa) && (MadeByOperator(StepNormal(s, c).st.sa.value) <==> MadeByOperator(s.st.sa.value))
  {
    hide Inv;
    hide StoreOrigin;
    hide WorkerOrigin;
    hide NormalRead;
    hide AfterNormalWrite;
    if s.normal.NBusy? && s.normal.at.NSaPatch? {
      CopyAgrees(s);
      PatchKeepsAnswer(s.st, s.normal.w, s.normal.at.provenance, s.normal.at.labels, s.normal.at.annotations);
      hide PatchSa;
    }
    hide NormalOrigin;
    hide ApplyWiPatch;
    hide Upsert;
    hide Label;
    hide RecordedAgrees;
  }

  lemma PatchKeepsAnswer(st: Store, w: Wi, p: Provenance, labels: Labels, annotations: Annotations)
    requires PatchOrigin(st.sa, w, p, labels) && Claimed(st.sa) && w.id.uid != ""
    ensures var sa' := PatchSa(st, labels, annotations).sa;
            Claimed(sa') && (MadeByOperator(sa'.value) <==> MadeByOperator(st.sa.value))
  {
    PatchAppliesLabels(st, labels, annotations);
    hide PatchSa;
    hide Label;
  }

  /** In tame runs nobody but an outsider ever removes an account that some instance owns and that the
      operator did not make, whatever crashed, failed or went stale before. */
  lemma OnlyTheOperatorsAccountsAreDeleted(s0: State, run: seq<Action>, a: Action)
    requires Init(s0) && TameRun(s0, run) && !a.EditServiceAccount?
    requires var s := Run(s0, run); Claimed(s.st.sa) && Apply(s, a).st.sa.None?
    ensures Label(Run(s0, run).st.sa.value, CreatedByLabel) == "true"
  {
    InitHasOrigin(s0);
    TameRunsKeepOrigin(s0, run);
    AccountTheorems.DeletedAccount(Run(s0, run), a);
    hide Init;
    hide Run;
    hide TameRun;
    hide Inv;
    hide StoreOrigin;
    hide WorkerOrigin;
    hide Apply;
  }

  /** The account is there in every state of the run. */
  ghost predicate Lasting(s: State, actions: seq<Action>) {
    forall i | 0 <= i <= |actions| :: Run(s, actions[..i]).st.sa.Some?
  }

  lemma {:induction false} ClaimedStaysClaimed(s: State, more: seq<Action>)
    requires Origin(s) && TameRun(s, more) && Lasting(s, more) && Claimed(s.st.sa)
    ensures Origin(Run(s, more)) && Claimed(Run(s, more).st.sa)
    ensures MadeByOperator(Run(s, more).st.sa.value) <==> MadeByOperator(s.st.sa.value)
    decreases |more|
  {
    hide Origin;
    hide Apply;
    hide Tame;
    hide MadeByOperator;
    if more != [] {
      var n := |more| - 1;
      assert forall i | 0 <= i <= n :: more[..n][..i] == more[..i];
      assert more[..|more|] == more;
      ClaimedStaysClaimed(s, more[..n]);
      ActionKeepsOrigin(Run(s, more[..n]), more[n]);
      OriginStep(Run(s, more[..n]), more[n]);
    }
  }

  /** Across any run, with any number of recoveries, crashes and interleavings, in which outsiders leave
      the operator's labels alone and the account stays in existence: a claimed account stays
      claimed and keeps its created-by answer, and whichever live instance owns it in the end
      and has recorded a provenance has recorded Created exactly when the operator made it. */
  lemma OriginSurvivesTheChain(s0: State, run: seq<Action>, more: seq<Action>)
    requires Init(s0) && TameRun(s0, run)
    requires var s := Run(s0, run); TameRun(s, more) && Lasting(s, more) && Claimed(s.st.sa)
    ensures var s, s' := Run(s0, run), Run(Run(s0, run), more);
            Claimed(s'.st.sa) && (MadeByOperator(s'.st.sa.value) <==> MadeByOperator(s.st.sa.value))
    ensures var s, s' := Run(s0, run), Run(Run(s0, run), more);
            s'.st.wi.Some? && s'.st.sa.Some? && OwnedBy(s'.st.wi.value.id.uid, s'.st.sa.value) && Persisted(s'.st.wi.value).Some? ==>
              (Persisted(s'.st.wi.value) == Some(Created) <==> MadeByOperator(s.st.sa.value))
  {
    hide Init;
    hide Run;
    hide TameRun;
    hide Lasting;
    hide Persisted;
    hide MadeByOperator;
    hide OwnedBy;
    InitHasOrigin(s0);
    TameRunsKeepOrigin(s0, run);
    ClaimedStaysClaimed(Run(s0, run), more);
    hide Inv;
    hide NormalOrigin;
    hide WorkerOrigin;
  }
}
