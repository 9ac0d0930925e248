/** Users and outsiders keep the invariant too; hence it holds in every state of every run. */
module Safety {
  import opened OwnershipTags
  import opened Azure
  import opened Resources
  import opened ServiceAccounts
  import opened Protocol
  import opened Invariant
  import opened TagWrites
  import opened WorkerReads
  import opened WorkerWrites
  import opened NormalSteps
  import opened NormalWrites

  // ---------------------------------------------------------------- users and outsiders

  lemma CreateWiKeeps(s: State, id: Ident, policy: bool)
    requires Inv(s) && s.st.wi.None? && id.uid != "" && id.uid !in s.st.used
    ensures Inv(Apply(s, CreateWi(id, policy)))
  {
    var s' := Apply(s, CreateWi(id, policy));
    CreateWiGlobal(s, id, policy);
    if s.worker.Busy? && s.worker.u in s.st.recs {
      assert s.st.recs[s.worker.u].target in s.st.used && s.st.recs[s.worker.u].source in s.st.used;
      CreateWiWorker(s.st, s'.st, s.worker.u, s.worker.deletion, s.worker.at);
    }
    assert NormalOk(s'.st, s'.normal);
    hide Global;
    hide WorkerAt;
  }

  lemma CreateWiGlobal(s: State, id: Ident, policy: bool)
    requires Inv(s) && s.st.wi.None? && id.uid != "" && id.uid !in s.st.used
    ensures Global(Apply(s, CreateWi(id, policy)).st)
  {
    assert s.st.uami.Some? && !Unfenced(s.st.uami.value) ==> FencedBy(s.st, Fence(s.st.uami.value));
    hide FencedBy;
    hide RecoveryOk;
    hide WorkerOk;
    hide NormalOk;
  }

  lemma CreateWiWorker(st: Store, st': Store, u: Uid, del: bool, at: At)
    requires st.wi.None? && u in st.recs && WorkerAt(st, u, del, at)
    requires st'.wi.Some? &&
             st' == st.(wi := st'.wi, clock := st'.clock, used := st'.used, local := st.local + {st'.wi.value.id.uid})
    requires st'.wi.value.evidence.None? && st'.wi.value.id.uid != st.recs[u].source &&
             st'.wi.value.id.uid != st.recs[u].target
    ensures WorkerAt(st', u, del, at)
  {
    hide Load;
    hide LockedWi;
    hide SomeStarted;
    hide NoneStarted;
    hide Unfenced;
    hide CopyCurrent;
    hide CondTrue;
  }

  lemma CreateRecoveryKeeps(s: State, r: Recovery)
    requires Inv(s) && FreshRecovery(s.st, r)
    ensures Inv(Apply(s, CreateRecovery(r)))
  {
    var s' := Apply(s, CreateRecovery(r));
    assert r.uid !in s.st.recs;
    CreateRecoveryGlobal(s.st, r);
    if s.worker.Busy? && s.worker.u in s.st.recs {
      CreateRecoveryWorker(s.st, r, s.worker.u, s.worker.deletion, s.worker.at);
    }
    assert s.normal.NIdle? || s.normal.NBusy?;
    NormalIgnoresRecordsAndUsed(s.st, s'.st, s.normal);
    hide Global;
    hide NormalOk;
  }

  lemma NormalIgnoresRecordsAndUsed(st: Store, st': Store, n: Normal)
    requires NormalOk(st, n) && st' == st.(recs := st'.recs, used := st'.used)
    ensures NormalOk(st', n)
  {
    hide LockedWi;
    hide Unfenced;
    hide Persisted;
  }

  function WithNew(st: Store, r: Recovery): Store {
    st.(recs := st.recs[r.uid := r], used := st.used + {r.uid, r.source, r.target})
  }

  lemma CreateRecoveryRecords(st: Store, r: Recovery)
    requires Global(st) && FreshRecovery(st, r)
    ensures var st' := WithNew(st, r); RecordsOk(st'.recs, st'.used) && OneStarted(st'.recs) && WiOk(st')
    ensures r.uid !in st.recs && SourceHeld(st, r)
  {
    assert RecoveryOk(r);
    hide RecoveryOk;
    hide MarkersOk;
    hide EvidenceOk;
    hide SourceHeld;
  }

  lemma CreateRecoveryMarkers(st: Store, r: Recovery)
    requires MarkersOk(st) && EvidenceOk(st) && FreshRecovery(st, r) && r.uid !in st.recs
    ensures MarkersOk(WithNew(st, r)) && EvidenceOk(WithNew(st, r))
  {
    var st' := WithNew(st, r);
    if st.uami.Some? && !Unfenced(st.uami.value) {
      assert FencedBy(st, Fence(st.uami.value));
      hide Load;
      assert FencedBy(st', Fence(st.uami.value));
    }
    forall u | HoldsLockOf(st, u)
      ensures HoldsLockOf(st', u)
    {
    }
    hide FencedBy;
    hide HoldsLockOf;
  }

  lemma CreateRecoveryGlobal(st: Store, r: Recovery)
    requires Global(st) && FreshRecovery(st, r)
    ensures Global(WithNew(st, r))
  {
    CreateRecoveryRecords(st, r);
    CreateRecoveryMarkers(st, r);
    hide RecordsOk;
    hide OneStarted;
    hide WiOk;
    hide MarkersOk;
    hide EvidenceOk;
    hide FreshRecovery;
  }

  lemma CreateRecoveryWorker(st: Store, r: Recovery, u: Uid, del: bool, at: At)
    requires Global(st) && FreshRecovery(st, r) && u in st.recs && WorkerAt(st, u, del, at)
    ensures WorkerAt(WithNew(st, r), u, del, at)
  {
    assert u != r.uid;
    hide Global;
    hide WorkerAt;
    hide SomeStarted;
    hide NoneStarted;
    var st' := WithNew(st, r);
    StartedSurvives(st.recs, st'.recs, st.recs[u].source);
    hide FreshRecovery;
    WorkerSurvivesOthers(st, st'.recs, u, del, at);
    WorkerIgnoresUsed(st.(recs := st'.recs), st'.used, u, del, at);
  }

  lemma WorkerIgnoresUsed(st: Store, used: set<Uid>, u: Uid, del: bool, at: At)
    requires u in st.recs && WorkerAt(st, u, del, at)
    ensures WorkerAt(st.(used := used), u, del, at)
  {
    hide Load;
    hide LockedWi;
    hide Unfenced;
    hide SameMarkers;
    hide SomeStarted;
    hide NoneStarted;
    hide CondTrue;
  }

  lemma StartedSurvives(recs: map<Uid, Recovery>, recs': map<Uid, Recovery>, source: Uid)
    requires forall u | u in recs && recs[u].started :: u in recs' && recs'[u].started && recs'[u].source == recs[u].source
    requires forall u | u in recs' && recs'[u].started :: u in recs && recs[u].started && recs'[u].source == recs[u].source
    ensures SomeStarted(recs, source) ==> SomeStarted(recs', source)
    ensures NoneStarted(recs, source) ==> NoneStarted(recs', source)
  {
  }

  lemma DeleteRecoveryKeeps(s: State, u: Uid)
    requires Inv(s) && u in s.st.recs
    ensures Inv(Apply(s, DeleteRecovery(u)))
  {
    var st, st' := s.st, StepDeleteRecovery(s.st, u);
    DeleteRecoveryGlobal(st, u);
    if s.worker.Busy? && s.worker.u in st.recs {
      DeleteRecoveryWorker(st, u, s.worker.u, s.worker.deletion, s.worker.at);
    }
    NormalIgnoresRecords(st, st'.recs, s.normal);
    hide Global;
    hide NormalOk;
    hide WorkerAt;
    hide RecoveryOk;
  }

  lemma DeleteRecoveryGlobal(st: Store, u: Uid)
    requires Global(st) && u in st.recs
    ensures Global(StepDeleteRecovery(st, u))
  {
    RecordFacts(st, u);
    var r := st.recs[u];
    if r.finalizer {
      if st.uami.Some? && Fence(st.uami.value) == u {
        assert FencedBy(st, u);
        hide Load;
      }
      hide CondsOk;
      hide Global;
      RecordUpdate(st, r.(deleting := true));
    } else {
      hide Global;
      WithoutRecord(st, u);
    }
  }

  /** Removing a recovery that has not started loses nothing. */
  lemma WithoutRecord(st: Store, u: Uid)
    requires Global(st) && u in st.recs && !st.recs[u].started
    ensures Global(st.(recs := st.recs - {u}))
  {
    var st' := st.(recs := st.recs - {u});
    FenceSurvivesRemoval(st, u);
    forall v | HoldsLockOf(st, v)
      ensures HoldsLockOf(st', v)
    {
    }
    hide FencedBy;
    hide RecoveryOk;
    hide Unfenced;
    hide LockHeld;
  }

  lemma DeleteRecoveryWorker(st: Store, d: Uid, u: Uid, del: bool, at: At)
    requires Global(st) && d in st.recs && u in st.recs && WorkerAt(st, u, del, at)
    ensures var st' := StepDeleteRecovery(st, d);
            if u in st'.recs then WorkerAt(st', u, del, at) else at == AddFinalizer && !del
  {
    var st' := StepDeleteRecovery(st, d);
    assert RecoveryOk(st.recs[u]) && RecoveryOk(st.recs[d]);
    StartedSurvives(st.recs, st'.recs, st.recs[u].source);
    hide Global;
    WorkerIsPinned(st, u, del, at);
    hide RecoveryOk;
    if u in st'.recs {
      WorkerSurvivesOthers(st, st'.recs, u, del, at);
    }
    hide WorkerAt;
  }

  /** A recovery under reconciliation carries the finalizer, except where it is about to get it. */
  lemma WorkerIsPinned(st: Store, u: Uid, del: bool, at: At)
    requires u in st.recs && RecoveryOk(st.recs[u]) && WorkerAt(st, u, del, at)
    ensures st.recs[u].finalizer || (at == AddFinalizer && !del)
  {
    hide LockHeld;
    hide Load;
    hide AtSource;
    hide SomeStarted;
    hide NoneStarted;
    hide SameMarkers;
  }

  /** The worker's assertion about u survives changes of the other records, and u's deletion mark. */
  lemma WorkerSurvivesOthers(st: Store, recs: map<Uid, Recovery>, u: Uid, del: bool, at: At)
    requires u in st.recs && u in recs && WorkerAt(st, u, del, at)
    requires recs[u] == st.recs[u] || recs[u] == st.recs[u].(deleting := true)
    requires SomeStarted(st.recs, st.recs[u].source) ==> SomeStarted(recs, st.recs[u].source)
    requires NoneStarted(st.recs, st.recs[u].source) ==> NoneStarted(recs, st.recs[u].source)
    ensures WorkerAt(st.(recs := recs), u, del, at)
  {
    hide Load;
    hide LockedWi;
    hide Unfenced;
    hide SameMarkers;
    hide SomeStarted;
    hide NoneStarted;
    hide CondTrue;
  }

  /** Tags an outsider may leave behind. */
  ghost predicate MayEditTags(st: Store, tags: Tags) {
    st.uami.Some? && SameMarkers(tags, st.uami.value.tags)
  }

  lemma EditsKeepMarkers(current: Tags, edit: Tags)
    ensures SameMarkers(EditedTags(current, edit), current) && SameUnrelated(EditedTags(current, edit), edit)
  {
  }

  lemma EditTagsKeeps(s: State, tags: Tags)
    requires Inv(s) && MayEditTags(s.st, tags)
    ensures Inv(s.(st := PutTags(s.st, tags)))
  {
    var st, st' := s.st, PutTags(s.st, tags);
    EditTagsGlobal(st, tags);
    if s.worker.Busy? && s.worker.u in st.recs {
      EditTagsWorker(st, tags, s.worker.u, s.worker.deletion, s.worker.at);
    }
    EditTagsNormal(st, tags, s.normal);
    hide Global;
    hide NormalOk;
    hide WorkerAt;
    hide MayEditTags;
  }

  lemma StageIgnoresUnrelated(st: Store, tags: Tags, u: Uid, t: Ident)
    requires MayEditTags(st, tags) && u in st.recs
    ensures StageOf(PutTags(st, tags), u, t) == StageOf(st, u, t)
  {
    BaseOwnershipByMarkers(t.key, tags, st.uami.value.tags);
    hide BaseOwnership;
    hide EqualFold;
  }

  lemma MarkersAreSame(st: Store, tags: Tags)
    requires MayEditTags(st, tags)
    ensures st.uami.Some?
    ensures var m, m' := st.uami.value, PutTags(st, tags).uami.value;
            Owner(m') == Owner(m) && Fence(m') == Fence(m) && FenceTarget(m') == FenceTarget(m) && LastRecovery(m') == LastRecovery(m)
  {
  }

  lemma EditTagsGlobal(st: Store, tags: Tags)
    requires Global(st) && MayEditTags(st, tags)
    ensures Global(PutTags(st, tags))
  {
    var st' := PutTags(st, tags);
    MarkersAreSame(st, tags);
    if !Unfenced(st.uami.value) {
      var u := Fence(st.uami.value);
      assert FencedBy(st, u);
      StageIgnoresUnrelated(st, tags, u, st.wi.value.id);
      hide Load;
      assert FencedBy(st', u);
    }
    forall u | HoldsLockOf(st, u)
      ensures HoldsLockOf(st', u)
    {
    }
    hide FencedBy;
    hide RecoveryOk;
    hide Owner;
    hide Fence;
    hide FenceTarget;
    hide LastRecovery;
    hide MayEditTags;
  }

  lemma EditTagsWorker(st: Store, tags: Tags, u: Uid, del: bool, at: At)
    requires u in st.recs && WorkerAt(st, u, del, at) && MayEditTags(st, tags)
    ensures WorkerAt(PutTags(st, tags), u, del, at)
  {
    hide MayEditTags;
    hide StageOf;
    hide Locked;
    hide Planning;
    hide Startable;
    hide PatchAt;
    hide NoneStarted;
    hide CopyCurrent;
    hide NotFencedBy;
    hide LockHeld;
    hide IsFailed;
    hide IsComplete;
    MarkersAreSame(st, tags);
    CopiesStayCurrent(st, tags);
    EditTagsAuxiliary(st, PutTags(st, tags), st.recs[u]);
    if HasIdent(at) {
      StageIgnoresUnrelated(st, tags, u, at.t);
      StagedSurvives(st, PutTags(st, tags), u, del, at);
    }
    hide Owner;
    hide Fence;
    hide FenceTarget;
    hide LastRecovery;
  }

  /** The control points whose assertion names a stage or a copy of the tags. */
  lemma StagedSurvives(st: Store, st': Store, u: Uid, del: bool, at: At)
    requires HasIdent(at) && u in st.recs && st'.recs == st.recs && WorkerAt(st, u, del, at)
    requires StageOf(st', u, at.t) == StageOf(st, u, at.t) &&
             Locked(st', st.recs[u], at.t) == Locked(st, st.recs[u], at.t)
    requires NotFencedBy(st', u) == NotFencedBy(st, u) && forall copy: Tags | CopyCurrent(st, copy) :: CopyCurrent(st', copy)
    ensures WorkerAt(st', u, del, at)
  {
    hide StageOf;
    hide Locked;
    hide CopyCurrent;
    hide NotFencedBy;
  }

  lemma EditTagsAuxiliary(st: Store, st': Store, r: Recovery)
    requires st.uami.Some? && st'.uami.Some? && st' == st.(uami := st'.uami)
    requires var m, m' := st.uami.value, st'.uami.value;
             Owner(m') == Owner(m) && Fence(m') == Fence(m) && FenceTarget(m') == FenceTarget(m)
    ensures forall t :: Locked(st, r, t) == Locked(st', r, t)
    ensures Startable(st, r) == Startable(st', r) && LockHeld(st, r) == LockHeld(st', r)
    ensures forall u :: NotFencedBy(st, u) == NotFencedBy(st', u)
    ensures forall p :: PatchAt(st, r, p) == PatchAt(st', r, p)
    ensures Planning(st, r) == Planning(st', r)
  {
    hide Owner;
    hide Fence;
    hide FenceTarget;
    hide LockedWi;
    hide CondTrue;
    hide SomeStarted;
    hide NoneStarted;
  }

  lemma CopiesStayCurrent(st: Store, tags: Tags)
    requires MayEditTags(st, tags)
    ensures forall copy: Tags | CopyCurrent(st, copy) :: CopyCurrent(PutTags(st, tags), copy)
  {
  }

  predicate HasIdent(at: At) { StageNeeded(at) || at.FinalizeFics? }

  lemma EditTagsNormal(st: Store, tags: Tags, n: Normal)
    requires NormalOk(st, n) && MayEditTags(st, tags)
    ensures NormalOk(PutTags(st, tags), n)
  {
    MarkersAreSame(st, tags);
    hide LockedWi;
    hide Persisted;
    hide Owner;
    hide Fence;
    hide FenceTarget;
    hide MayEditTags;
  }

  lemma WiActionKeeps(s: State, a: Action)
    requires Inv(s) && (a.EditWi? || a.DeleteWi?) && s.st.wi.Some?
    ensures Inv(Apply(s, a))
  {
    var s' := Apply(s, a);
    if a.EditWi? || s.st.wi.value.finalizer {
      assert WiTouched(s.st, s'.st);
      TouchKeepsGlobal(s.st, s'.st);
      WorkerSurvivesWi(s.st, s'.st, s.worker);
      NormalSurvivesTouch(s.st, s'.st, s.normal);
    } else {
      assert !LockedWi(s.st.wi.value);
      RemovalKeepsGlobal(s.st, s'.st);
      WorkerSurvivesWi(s.st, s'.st, s.worker);
      hide LockedWi;
      hide Persisted;
      hide Unfenced;
      assert NormalOk(s'.st, s.normal);
    }
    hide Global;
    hide WorkerOk;
    hide NormalOk;
  }

  lemma AccountActionKeeps(s: State, a: Action)
    requires Inv(s) && (a.EditCredentials? || a.EditServiceAccount?)
    ensures Inv(Apply(s, a))
  {
    var s' := Apply(s, a);
    AccountsOfOutsiders(s, a);
    GlobalIgnoresAccounts(s.st, s'.st);
    WorkerSurvivesAccounts(s.st, s'.st, s.worker);
    NormalIgnoresAccounts(s.st, s'.st, s.normal);
    hide Global;
    hide WorkerOk;
    hide NormalOk;
  }

  lemma AccountsOfOutsiders(s: State, a: Action)
    requires WiOk(s.st) && (a.EditCredentials? || a.EditServiceAccount?)
    ensures OnlyAccountsDiffer(s.st, Apply(s, a).st) && Apply(s, a).worker == s.worker && Apply(s, a).normal == s.normal
  {
  }

  // ---------------------------------------------------------------- every action, every run

  lemma WorkerCallKeeps(s: State, c: Choice)
    requires Inv(s)
    ensures Inv(StepWorker(s, c))
  {
    hide Global;
    hide NormalOk;
    hide WorkerAt;
    if s.worker.Busy? && s.worker.u in s.st.recs {
      var Busy(u, del, at) := s.worker;
      if IsWrite(at) {
        WorkerWriteKeeps(s.st, u, del, at, s.normal);
      } else {
        WorkerReadKeeps(s.st, u, del, at, c);
      }
    }
    hide Read;
    hide Write;
    hide AfterWrite;
  }

  lemma NormalCallKeeps(s: State, c: Choice)
    requires Inv(s)
    ensures Inv(StepNormal(s, c))
  {
    hide Global;
    hide NormalOk;
    hide WorkerOk;
    if s.normal.NBusy? {
      var NBusy(w, at) := s.normal;
      if IsNormalWrite(at) {
        NormalWriteKeeps(s.st, w, at, c, s.worker);
      } else {
        NormalReadKeeps(s.st, w, at, c);
      }
    }
    hide NormalRead;
    hide NormalWrite;
    hide AfterNormalWrite;
  }

  lemma CrashKeeps(s: State)
    requires Inv(s)
    ensures Inv(s.(worker := Idle)) && Inv(s.(normal := NIdle))
  {
    hide Global;
    hide WorkerAt;
    hide NormalAt;
    hide Pinned;
  }

  /** One action, whoever takes it. */
  lemma ActionKeeps(s: State, a: Action)
    requires Inv(s)
    ensures Inv(Apply(s, a))
  {
    match a
    case WorkerBegin(u, c) =>
      if s.worker.Idle? && u in s.st.recs {
        EnterKeeps(s.st, u, c.configured);
      }
      hide *;
    case WorkerCall(c) => WorkerCallKeeps(s, c);
    case WorkerCrash => CrashKeeps(s);
    case NormalBegin =>
      if s.normal.NIdle? && s.st.wi.Some? {
        NormalEnterKeeps(s.st);
      }
    case NormalCall(c) => NormalCallKeeps(s, c);
    case NormalCrash => CrashKeeps(s);
    case CreateWi(id, policy) =>
      if s.st.wi.None? && id.uid != "" && id.uid !in s.st.used {
        CreateWiKeeps(s, id, policy);
      }
    case EditWi(_, _) =>
      if s.st.wi.Some? {
        WiActionKeeps(s, a);
      }
    case DeleteWi =>
      if s.st.wi.Some? {
        WiActionKeeps(s, a);
      }
    case CreateRecovery(r) =>
      if FreshRecovery(s.st, r) {
        CreateRecoveryKeeps(s, r);
      }
    case DeleteRecovery(u) =>
      if u in s.st.recs {
        DeleteRecoveryKeeps(s, u);
      }
    case EditUnrelatedTags(tags) =>
      if s.st.uami.Some? {
        EditsKeepMarkers(s.st.uami.value.tags, tags);
        EditTagsKeeps(s, EditedTags(s.st.uami.value.tags, tags));
      }
    case EditCredentials(_) => AccountActionKeeps(s, a);
    case EditServiceAccount(_) => AccountActionKeeps(s, a);
  }

  lemma InitEstablishes(s: State)
    requires Init(s)
    ensures Inv(s)
  {
  }

  /** The invariant holds after every run, whatever the interleaving and the crashes. */
  lemma {:induction false} ReachableIsSafe(s: State, actions: seq<Action>)
    requires Init(s)
    ensures Inv(Run(s, actions))
    decreases |actions|
  {
    hide Inv;
    hide Init;
    hide Apply;
    if actions == [] {
      InitEstablishes(s);
    } else {
      var n := |actions| - 1;
      ReachableIsSafe(s, actions[..n]);
      ActionKeeps(Run(s, actions[..n]), actions[n]);
    }
  }
}
