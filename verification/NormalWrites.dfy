/** The writing calls of the normal reconciler keep the invariant, and so do users and outsiders. */
module NormalWrites {
  import opened OwnershipTags
  import opened Azure
  import opened Resources
  import opened ServiceAccounts
  import opened Protocol
  import opened Invariant
  import opened TagWrites
  import opened WorkerWrites
  import opened NormalSteps

  // ---------------------------------------------------------------- changes of the WorkloadIdentity

  /** The object changed, or went away, without any lock being taken, lost or moved. */
  ghost predicate WiMoved(st: Store, st': Store) {
    st' == st.(wi := st'.wi, clock := st'.clock) && st.clock <= st'.clock &&
    (st'.wi.Some? ==> st.wi.Some? && st'.wi.value.id == st.wi.value.id && st'.wi.value.version < st'.clock) &&
    (st'.wi.None? && st.wi.Some? ==> !LockedWi(st.wi.value)) &&
    (st'.wi.Some? ==>
       LockedWi(st'.wi.value) == LockedWi(st.wi.value) &&
       (LockedWi(st.wi.value) ==> st'.wi.value.evidence == st.wi.value.evidence))
  }

  lemma WorkerSurvivesWi(st: Store, st': Store, w: Worker)
    requires WiMoved(st, st') && WorkerOk(st, w)
    ensures WorkerOk(st', w)
  {
    if w.Busy? && w.u in st.recs {
      WorkerAtSurvivesWi(st, st', w.u, w.deletion, w.at);
    }
    hide WorkerAt;
  }

  lemma WorkerAtSurvivesWi(st: Store, st': Store, u: Uid, del: bool, at: At)
    requires WiMoved(st, st') && u in st.recs && WorkerAt(st, u, del, at)
    ensures WorkerAt(st', u, del, at)
  {
    hide LockHeld;
    hide LockedWi;
    hide Load;
    hide SameMarkers;
    hide SomeStarted;
    hide NoneStarted;
    hide Unfenced;
    hide CondTrue;
    LockIsSame(st, st', st.recs[u]);
  }

  lemma LockIsSame(st: Store, st': Store, r: Recovery)
    requires WiMoved(st, st')
    ensures LockHeld(st, r) == LockHeld(st', r)
    ensures LockHeld(st, r) ==> st'.wi.Some? && st'.wi.value.id == st.wi.value.id
  {
  }

  lemma MarkersSurviveWi(st: Store, st': Store)
    requires WiMoved(st, st') && MarkersOk(st)
    ensures MarkersOk(st')
  {
    if st.uami.Some? && !Unfenced(st.uami.value) {
      var u := Fence(st.uami.value);
      assert FencedBy(st, u);
      LockIsSame(st, st', st.recs[u]);
      hide Load;
      hide LockHeld;
      assert FencedBy(st', u);
    }
    hide FencedBy;
  }

  lemma GlobalSurvivesWi(st: Store, st': Store)
    requires WiMoved(st, st') && Global(st) && WiOk(st') && EvidenceOk(st')
    ensures Global(st')
  {
    MarkersSurviveWi(st, st');
    hide RecordsOk;
    hide OneStarted;
    hide MarkersOk;
    hide EvidenceOk;
    hide WiOk;
    hide LockedWi;
  }

  /** Finalizer, policy, generation or deletion mark: status is untouched. */
  ghost predicate WiTouched(st: Store, st': Store) {
    st.wi.Some? && st'.wi.Some? && st' == st.(wi := st'.wi, clock := st.clock + 1) &&
    st'.wi.value == st.wi.value.(finalizer := st'.wi.value.finalizer, deletePolicy := st'.wi.value.deletePolicy,
                                 gen := st'.wi.value.gen, deleting := st'.wi.value.deleting, version := st.clock) &&
    (st.wi.value.finalizer ==> st'.wi.value.finalizer)
  }

  lemma TouchKeepsGlobal(st: Store, st': Store)
    requires Global(st) && WiTouched(st, st')
    ensures WiMoved(st, st') && Global(st')
  {
    forall u | HoldsLockOf(st, u)
      ensures HoldsLockOf(st', u)
    {
    }
    assert EvidenceOk(st');
    GlobalSurvivesWi(st, st');
    hide Global;
  }

  lemma NormalSurvivesTouch(st: Store, st': Store, n: Normal)
    requires WiTouched(st, st') && NormalOk(st, n)
    ensures NormalOk(st', n)
  {
    hide Unfenced;
    hide Persisted;
    hide LockedWi;
  }

  /** Removal of an object that holds no lock. */
  lemma RemovalKeepsGlobal(st: Store, st': Store)
    requires Global(st) && st' == st.(wi := None) && (st.wi.Some? ==> !LockedWi(st.wi.value))
    ensures WiMoved(st, st') && Global(st')
  {
    GlobalSurvivesWi(st, st');
    hide Global;
  }

  lemma StatusKeepsGlobal(st: Store, w: Wi, patch: WiPatch)
    requires Global(st) && NormalOk(st, NBusy(w, NStatus(patch))) && Current(st, w)
    ensures WiMoved(st, st.(wi := Some(ApplyWiPatch(w, patch).(version := st.clock)), clock := st.clock + 1))
    ensures Global(st.(wi := Some(ApplyWiPatch(w, patch).(version := st.clock)), clock := st.clock + 1))
  {
    var st' := st.(wi := Some(ApplyWiPatch(w, patch).(version := st.clock)), clock := st.clock + 1);
    assert st.wi.value == w && Pinned(st, w) && StatusAt(st, w, patch);
    StatusShape(w, patch);
    assert WiOk(st') && EvidenceOk(st') by {
      hide ApplyWiPatch;
    }
    hide ApplyWiPatch;
    hide NormalOk;
    GlobalSurvivesWi(st, st');
    hide Global;
  }

  lemma StatusShape(w: Wi, patch: WiPatch)
    requires patch.NotReadyPatch? ==> patch.reason.ReasonOther?
    ensures var w' := ApplyWiPatch(w, patch);
            w'.id == w.id && w'.finalizer == w.finalizer && !LockedWi(w') &&
            (if patch.RequiredPatch? then w'.evidence == Some(patch.evidence) else w'.evidence.None?)
  {
  }

  // ---------------------------------------------------------------- creation and deletion of the UAMI

  lemma CreateKeeps(st: Store, st': Store, w: Wi)
    requires Global(st) && st.uami.None? && st.wi.Some? && st.wi.value.id == w.id
    requires st'.uami.Some? && st' == st.(uami := st'.uami, fics := []) &&
             st'.uami.value.tags == WorkloadIdentityTags(w.id)
    ensures Global(st') && OwnedHere(st', w)
  {
    var m := st'.uami.value;
    assert Owner(m) == w.id.uid && Fence(m) == "" && FenceTarget(m) == "" && LastRecovery(m) == "";
    assert "" !in st.recs by {
      assert forall u | u in st.recs :: RecoveryOk(st.recs[u]) && st.recs[u].uid == u;
    }
    forall u | HoldsLockOf(st, u)
      ensures HoldsLockOf(st', u)
    {
    }
    hide WorkloadIdentityTags;
    hide RecoveryOk;
  }

  lemma WorkerSurvivesCreate(st: Store, st': Store, u: Uid, del: bool, at: At)
    requires u in st.recs && WorkerAt(st, u, del, at) && st.uami.None? && u != "" && st.recs[u].uid == u
    requires st'.uami.Some? && st' == st.(uami := st'.uami, fics := []) && Unfenced(st'.uami.value)
    ensures WorkerAt(st', u, del, at)
  {
    hide LockedWi;
    hide SomeStarted;
    hide NoneStarted;
    hide SameMarkers;
    if StageNeeded(at) {
      assert false;
    }
    hide Load;
  }

  lemma DeleteUamiKeeps(st: Store, w: Wi)
    requires Global(st) && NormalOk(st, NBusy(w, NDeleteUami))
    ensures Global(st.(uami := None, fics := []))
  {
    var st' := st.(uami := None, fics := []);
    assert st.uami.Some? ==> Owner(st.uami.value) == st.wi.value.id.uid && Unfenced(st.uami.value);
    forall u | HoldsLockOf(st, u)
      ensures HoldsLockOf(st', u)
    {
    }
    forall u | u in st.recs
      ensures SourceHeld(st', st.recs[u])
    {
      assert SourceHeld(st, st.recs[u]) && RecoveryOk(st.recs[u]);
    }
    hide NormalOk;
    hide RecoveryOk;
  }

  lemma WorkerSurvivesDelete(st: Store, u: Uid, del: bool, at: At, w: Wi)
    requires u in st.recs && WorkerAt(st, u, del, at) && Pinned(st, w) && OwnedHere(st, w)
    requires WellFormed(Req(st.recs[u]), st.recs[u].target) && st.recs[u].uid == u
    ensures WorkerAt(st.(uami := None, fics := []), u, del, at)
  {
    hide Load;
    hide SomeStarted;
    hide NoneStarted;
    hide SameMarkers;
    hide CondTrue;
    if StageNeeded(at) {
      StagedIsNotOwned(st, u, del, at, w);
    }
  }

  lemma StagedFacts(st: Store, u: Uid, del: bool, at: At)
    requires u in st.recs && WorkerAt(st, u, del, at) && StageNeeded(at)
    ensures StageOf(st, u, at.t).Some? && StageOf(st, u, at.t) != Some(Complete) && Locked(st, st.recs[u], at.t)
  {
    hide StageOf;
    hide Locked;
    hide CopyCurrent;
    hide NotFencedBy;
  }

  /** At a control point that names a stage, the instance under normal reconciliation does not own
      the UAMI outright. */
  lemma StagedIsNotOwned(st: Store, u: Uid, del: bool, at: At, w: Wi)
    requires u in st.recs && WorkerAt(st, u, del, at) && StageNeeded(at) && Pinned(st, w)
    requires WellFormed(Req(st.recs[u]), st.recs[u].target) && st.recs[u].uid == u
    ensures !OwnedHere(st, w)
  {
    hide Load;
    hide WorkerAt;
    StagedFacts(st, u, del, at);
    LoadFacts(st.uamiId, Req(st.recs[u]), at.t, st.recs[u].plan, st.uami);
    hide RecoverableUami;
    hide PlanMatches;
  }

  /** Control points whose assertion names the stage of the UAMI. */
  predicate StageNeeded(at: At) {
    at.MarkPut? || at.FicPut? || at.CommitFics? || at.CommitPut? || at.CommitFicsAfter? || at.FinalizePut? ||
    (at.FinalizeFics? && at.stage != Complete)
  }

  // ---------------------------------------------------------------- all writes of the normal reconciler

  lemma AccountsOfNormal(st: Store, w: Wi, at: NAt, c: Choice)
    requires Global(st) && (at.NFicPut? || at.NSaCreate? || at.NSaPatch? || at.NDeleteSa?)
    ensures OnlyAccountsDiffer(st, NormalWrite(st, w, at, c))
  {
    hide MarkersOk;
    hide EvidenceOk;
    hide RecordsOk;
    hide Upsert;
  }

  lemma AfterAccountsOfNormal(st: Store, w: Wi, at: NAt, c: Choice)
    requires NormalOk(st, NBusy(w, at)) && (at.NFicPut? || at.NSaCreate? || at.NSaPatch? || at.NDeleteSa?)
    ensures NormalOk(st, AfterNormalWrite(st, w, at, c))
  {
    NotReadyIsOk(st, w, at, "AzureEnsureFailed");
    NotReadyIsOk(st, w, at, "ServiceAccountEnsureFailed");
    match at
    case NFicPut(state, _, m) => NormalMoves(st, w, at, NSaGet(state, m));
    case NSaCreate(p, _) => NormalMoves(st, w, at, NStatus(ReadyPatch(p, c.uid, st.uamiId)));
    case NSaPatch(p, _, _) => if st.sa.Some? { NormalMoves(st, w, at, NStatus(ReadyPatch(p, st.sa.value.uid, st.uamiId))); }
    case NDeleteSa => NormalMoves(st, w, at, NRemoveFinalizer);
  }

  lemma AddFinalizerMoves(st: Store, w: Wi, c: Choice)
    requires Global(st) && NormalOk(st, NBusy(w, NAddFinalizer))
    ensures var st' := NormalWrite(st, w, NAddFinalizer, c);
            (st' == st || WiTouched(st, st')) && NormalOk(st', AfterNormalWrite(st, w, NAddFinalizer, c))
  {
    hide MarkersOk;
    hide EvidenceOk;
    hide RecordsOk;
  }

  lemma CreatedMoves(st: Store, w: Wi, state: SaState, url: string, c: Choice)
    requires NormalOk(st, NBusy(w, NCreate(state, url)))
    requires OwnedHere(CreateUami(st, w, c), w)
    ensures NormalOk(CreateUami(st, w, c), AfterNormalWrite(st, w, NCreate(state, url), c))
  {
    hide OwnedHere;
    hide LockedWi;
    hide Persisted;
  }

  lemma DeletedMoves(st: Store, w: Wi, c: Choice)
    requires NormalOk(st, NBusy(w, NDeleteUami))
    ensures NormalOk(NormalWrite(st, w, NDeleteUami, c), AfterNormalWrite(st, w, NDeleteUami, c))
  {
    hide LockedWi;
  }

  lemma WorkerSurvivesUami(st: Store, st': Store, w: Wi, wk: Worker)
    requires Global(st) && WorkerOk(st, wk) && Pinned(st, w) && OwnedHere(st, w)
    requires (st.uami.None? && st'.uami.Some? && st' == st.(uami := st'.uami, fics := []) && Unfenced(st'.uami.value)) ||
             st' == st.(uami := None, fics := [])
    ensures WorkerOk(st', wk)
  {
    if wk.Busy? && wk.u in st.recs {
      assert RecoveryOk(st.recs[wk.u]) && st.recs[wk.u].uid == wk.u;
      hide Global;
      if st'.uami.Some? {
        WorkerSurvivesCreate(st, st', wk.u, wk.deletion, wk.at);
      } else {
        WorkerSurvivesDelete(st, wk.u, wk.deletion, wk.at, w);
      }
    }
    hide Global;
    hide WorkerAt;
  }

  lemma CreateWriteKeeps(st: Store, w: Wi, state: SaState, url: string, c: Choice, wk: Worker)
    requires Global(st) && NormalOk(st, NBusy(w, NCreate(state, url))) && WorkerOk(st, wk)
    ensures Global(NormalWrite(st, w, NCreate(state, url), c))
    ensures NormalOk(NormalWrite(st, w, NCreate(state, url), c), AfterNormalWrite(st, w, NCreate(state, url), c))
    ensures WorkerOk(NormalWrite(st, w, NCreate(state, url), c), wk)
  {
    var st' := NormalWrite(st, w, NCreate(state, url), c);
    assert st.uami.None? && Pinned(st, w);
    CreatedMoves(st, w, state, url, c);
    if !c.fails {
      assert st' == CreateUami(st, w, c);
      CreateKeeps(st, st', w);
      WorkerSurvivesUami(st, st', w, wk);
    }
    hide Global;
    hide WorkerOk;
  }

  lemma NormalWriteKeeps(st: Store, w: Wi, at: NAt, c: Choice, wk: Worker)
    requires Global(st) && NormalOk(st, NBusy(w, at)) && IsNormalWrite(at) && WorkerOk(st, wk)
    ensures Global(NormalWrite(st, w, at, c))
    ensures NormalOk(NormalWrite(st, w, at, c), AfterNormalWrite(st, w, at, c))
    ensures WorkerOk(NormalWrite(st, w, at, c), wk)
  {
    var st' := NormalWrite(st, w, at, c);
    match at
    case NAddFinalizer =>
      AddFinalizerMoves(st, w, c);
      if st' != st {
        TouchKeepsGlobal(st, st');
        WorkerSurvivesWi(st, st', wk);
      }
    case NCreate(state, url) =>
      CreateWriteKeeps(st, w, state, url, c, wk);
    case NDeleteUami =>
      assert Pinned(st, w) && OwnedHere(st, w);
      DeleteUamiKeeps(st, w);
      DeletedMoves(st, w, c);
      WorkerSurvivesUami(st, st', w, wk);
    case NStatus(patch) =>
      if Current(st, w) {
        StatusKeepsGlobal(st, w, patch);
        WorkerSurvivesWi(st, st', wk);
      }
      assert AfterNormalWrite(st, w, at, c) == NIdle;
      NormalIdle(st');
    case NRemoveFinalizer =>
      if Current(st, w) {
        assert st.wi.value == w && !LockedWi(w);
        RemovalKeepsGlobal(st, st');
        WorkerSurvivesWi(st, st', wk);
      }
      assert AfterNormalWrite(st, w, at, c) == NIdle;
      NormalIdle(st');
    case _ =>
      AccountsOfNormal(st, w, at, c);
      GlobalIgnoresAccounts(st, st');
      WorkerSurvivesAccounts(st, st', wk);
      AfterAccountsOfNormal(st, w, at, c);
      NormalIgnoresAccounts(st, st', AfterNormalWrite(st, w, at, c));
  }

  lemma NormalIdle(st: Store)
    ensures NormalOk(st, NIdle)
  {
  }
}
