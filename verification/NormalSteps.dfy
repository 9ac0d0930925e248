/** Every call of the normal reconciler keeps the invariant, including the part of it that speaks
    about a recovery that is under way at the same time. */
module NormalSteps {
  import opened OwnershipTags
  import opened Azure
  import opened Resources
  import opened ServiceAccounts
  import opened Protocol
  import opened Invariant

  // ---------------------------------------------------------------- reads

  lemma NormalEnterKeeps(st: Store)
    requires Global(st) && st.wi.Some?
    ensures NormalOk(st, NormalEnter(st.wi.value))
  {
    hide MarkersOk;
    hide EvidenceOk;
    hide RecordsOk;
  }

  lemma NotReadyIsOk(st: Store, w: Wi, at: NAt, name: string)
    requires NormalOk(st, NBusy(w, at)) && at != NAddFinalizer
    ensures NormalOk(st, NotReady(w, name))
  {
    hide NormalAt;
    assert StatusAt(st, w, NotReadyPatch(ReasonOther(name)));
    NormalAtStatus(st, w, NotReadyPatch(ReasonOther(name)));
  }

  lemma NormalAtStatus(st: Store, w: Wi, p: WiPatch)
    ensures NormalAt(st, w, NStatus(p)) == StatusAt(st, w, p)
  {
  }

  /** A fence seen by a normal reconcile means that its copy of the target is out of date. */
  lemma FenceMeansStale(st: Store, w: Wi)
    requires Global(st) && Pinned(st, w) && (Current(st, w) ==> st.wi.value == w)
    requires st.uami.Some? && !Unfenced(st.uami.value)
    ensures !Current(st, w)
  {
    assert FencedBy(st, Fence(st.uami.value));
    hide Load;
  }

  lemma OwnedMeansOwned(t: Ident, u: Uami)
    requires Classify(t, u) == Owned
    ensures Unfenced(u) && Owner(u) == t.uid
  {
    assert HasTags(u.tags, WorkloadIdentityTags(t));
    assert OwnerUid in WorkloadIdentityTags(t);
  }

  lemma RequiredMeansSource(t: Ident, u: Uami)
    requires Classify(t, u).RecoveryRequired?
    ensures Unfenced(u) && Owner(u) == Classify(t, u).previous && Owner(u) != "" && Owner(u) != t.uid
  {
  }

  lemma ClassifiedIsOk(st: Store, w: Wi, at: NAt)
    requires Global(st) && NormalOk(st, NBusy(w, at)) && at != NAddFinalizer && st.uami.Some?
    ensures Classify(w.id, st.uami.value) == Owned ==> OwnedHere(st, w)
    ensures Classify(w.id, st.uami.value).RecoveryRequired? ==>
              NormalOk(st, NBusy(w, NStatus(RequiredPatch(Classify(w.id, st.uami.value).previous))))
    ensures Classify(w.id, st.uami.value) == RecoveryInProgress ==>
              NormalOk(st, NBusy(w, NStatus(NotReadyPatch(ReasonRecoveryInProgress))))
  {
    if Classify(w.id, st.uami.value) == Owned {
      OwnedMeansOwned(w.id, st.uami.value);
    } else if Classify(w.id, st.uami.value).RecoveryRequired? {
      RequiredMeansSource(w.id, st.uami.value);
      hide NormalAt;
      hide Global;
      hide Classify;
      NormalAtStatus(st, w, RequiredPatch(Classify(w.id, st.uami.value).previous));
    } else if Classify(w.id, st.uami.value) == RecoveryInProgress {
      assert !Unfenced(st.uami.value);
      FenceMeansStale(st, w);
      hide NormalAt;
      hide Global;
      NormalAtStatus(st, w, NotReadyPatch(ReasonRecoveryInProgress));
    }
    hide NormalOk;
    hide Global;
    hide Classify;
  }

  lemma InspectKeepsState(w: Wi, sa: Option<Sa>)
    ensures Inspect(w, sa).Inspected? ==> KeepsState(w, Inspect(w, sa).state)
  {
    hide Unannotated;
    hide SubjectRecorded;
    hide ProvenanceFromLabels;
  }

  lemma EnsureKeepsProvenance(w: Wi, state: SaState, clientId: string, tenantId: string, sa: Option<Sa>)
    requires KeepsState(w, state)
    ensures var d := DecideEnsure(w, state, clientId, tenantId, sa);
            !d.RefuseAccount? ==> KeepsProvenance(w, d.provenance)
  {
    hide OwnershipError;
    hide Unannotated;
    hide SubjectRecorded;
  }

  /** Moving to a control point whose own assertion holds. */
  lemma NormalMoves(st: Store, w: Wi, at: NAt, at': NAt)
    requires NormalOk(st, NBusy(w, at)) && at != NAddFinalizer && NormalAt(st, w, at')
    ensures NormalOk(st, NBusy(w, at'))
  {
    hide NormalAt;
  }

  lemma InspectKeeps(st: Store, w: Wi, url: string)
    requires NormalOk(st, NBusy(w, NInspect(url)))
    ensures NormalOk(st, AfterInspect(st, w, url))
  {
    NotReadyIsOk(st, w, NInspect(url), "ServiceAccountConflict");
    InspectKeepsState(w, st.sa);
    match Inspect(w, st.sa)
    case Inspected(state) => NormalMoves(st, w, NInspect(url), NEnsure(state, url));
    case ForeignOwner(owner) => NormalMoves(st, w, NInspect(url), NDetect(owner));
    case SaConflict =>
  }

  lemma DetectKeeps(st: Store, w: Wi, owner: Uid, c: Choice)
    requires Global(st) && NormalOk(st, NBusy(w, NDetect(owner)))
    ensures NormalOk(st, AfterDetect(st, w, owner, c))
  {
    NotReadyIsOk(st, w, NDetect(owner), "ServiceAccountConflict");
    if st.uami.Some? {
      ClassifiedIsOk(st, w, NDetect(owner));
    }
    hide Global;
    hide NormalOk;
    hide NotReady;
    hide EqualFold;
    hide Classify;
  }

  lemma EnsureKeeps(st: Store, w: Wi, state: SaState, url: string, c: Choice)
    requires Global(st) && NormalOk(st, NBusy(w, NEnsure(state, url)))
    ensures NormalOk(st, AfterEnsure(st, w, state, url, c))
  {
    var at := NEnsure(state, url);
    NotReadyIsOk(st, w, at, "AzureEnsureFailed");
    NotReadyIsOk(st, w, at, "AzureResourceOwnershipConflict");
    if st.uami.Some? {
      ClassifiedIsOk(st, w, at);
      if Classify(w.id, st.uami.value) == Owned {
        NormalMoves(st, w, at, NFicGet(state, url, Managed(st.uami.value.clientId, st.uami.value.tenantId)));
      }
    } else {
      NormalMoves(st, w, at, NCreate(state, url));
    }
    hide Global;
    hide NormalOk;
    hide NotReady;
    hide EqualFold;
    hide Classify;
  }

  lemma NFicGetKeeps(st: Store, w: Wi, state: SaState, url: string, m: Managed, c: Choice)
    requires NormalOk(st, NBusy(w, NFicGet(state, url, m)))
    ensures NormalOk(st, AfterNFicGet(st, w, state, url, m, c))
  {
    var at := NFicGet(state, url, m);
    NotReadyIsOk(st, w, at, "AzureEnsureFailed");
    NormalMoves(st, w, at, NSaGet(state, m));
    NormalMoves(st, w, at, NFicPut(state, url, m));
    hide NormalOk;
    hide NotReady;
    hide FindFic;
  }

  lemma NSaGetKeeps(st: Store, w: Wi, state: SaState, m: Managed)
    requires NormalOk(st, NBusy(w, NSaGet(state, m)))
    ensures NormalOk(st, AfterNSaGet(st, w, state, m))
  {
    var at := NSaGet(state, m);
    NotReadyIsOk(st, w, at, "ServiceAccountConflict");
    EnsureKeepsProvenance(w, state, m.clientId, m.tenantId, st.sa);
    match DecideEnsure(w, state, m.clientId, m.tenantId, st.sa)
    case CreateAccount(p) => NormalMoves(st, w, at, NSaCreate(p, m));
    case PatchAccount(p, labels, annotations) => NormalMoves(st, w, at, NSaPatch(p, labels, annotations));
    case KeepAccount(p, saUid) => NormalMoves(st, w, at, NStatus(ReadyPatch(p, saUid, st.uamiId)));
    case RefuseAccount =>
  }

  lemma DeleteReadKeeps(st: Store, w: Wi, at: NAt, c: Choice)
    requires Global(st) && NormalOk(st, NBusy(w, at)) && (at.NDeleteGet? || at.NDeleteSaGet?)
    ensures NormalOk(st, NormalRead(st, w, at, c))
  {
    if st.uami.Some? {
      ClassifiedIsOk(st, w, at);
      if Classify(w.id, st.uami.value) == Owned {
        NormalMoves(st, w, at, NDeleteUami);
      }
    } else {
      NormalMoves(st, w, at, NDeleteSaGet);
      if st.sa.Some? && Deletable(w, st.sa.value) {
        NormalMoves(st, w, at, NDeleteSa);
      }
    }
    NormalMoves(st, w, at, NRemoveFinalizer);
    if at.NDeleteSaGet? {
      assert st.uami.None?;
    }
    hide Global;
    hide NormalOk;
    hide Classify;
    hide Deletable;
  }

  lemma NormalReadKeeps(st: Store, w: Wi, at: NAt, c: Choice)
    requires Global(st) && NormalOk(st, NBusy(w, at)) && !IsNormalWrite(at)
    ensures NormalOk(st, NormalRead(st, w, at, c))
  {
    hide Global;
    hide NormalOk;
    hide NotReady;
    match at
    case NIssuer =>
      IssuerKeeps(st, w, c);
    case NInspect(url) =>
      NotReadyIsOk(st, w, at, "ServiceAccountReadFailed");
      InspectKeeps(st, w, url);
    case NDetect(owner) => DetectKeeps(st, w, owner, c);
    case NEnsure(state, url) => EnsureKeeps(st, w, state, url, c);
    case NFicGet(state, url, m) => NFicGetKeeps(st, w, state, url, m, c);
    case NSaGet(state, m) =>
      NotReadyIsOk(st, w, at, "ServiceAccountEnsureFailed");
      NSaGetKeeps(st, w, state, m);
    case NDeleteGet => DeleteReadKeeps(st, w, at, c);
    case NDeleteSaGet => DeleteReadKeeps(st, w, at, c);
  }

  lemma IssuerKeeps(st: Store, w: Wi, c: Choice)
    requires NormalOk(st, NBusy(w, NIssuer))
    ensures NormalOk(st, NormalRead(st, w, NIssuer, c))
  {
    NotReadyIsOk(st, w, NIssuer, "OIDCIssuerNotReady");
    NotReadyIsOk(st, w, NIssuer, "ManagerNotConfigured");
    if c.issuer.Some? {
      NormalMoves(st, w, NIssuer, NInspect(c.issuer.value));
    }
    hide NormalAt;
    hide NotReady;
  }
}
