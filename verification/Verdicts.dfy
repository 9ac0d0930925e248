/** What every answer of Azure and of the issuer makes the normal reconciler do, from the tags and fields it
    has read, and what its status patches say. */
module Verdicts {
  import opened OwnershipTags
  import opened Azure
  import opened Resources
  import opened ServiceAccounts
  import opened Protocol
  import opened Invariant
  import opened Safety
  import opened IdentityTheorems

  /** The UAMI carries the operator's complete tags for this logical identity and no recovery marker, and
      names e as its owner. */
  predicate BelongsTo(u: Uami, key: Key, e: Uid) {
    OwnerUid in u.tags && TagValue(u.tags, OwnerUid) == e &&
    TagValue(u.tags, RecoveryUid) == "" && TagValue(u.tags, TargetUid) == "" &&
    TagValue(u.tags, ManagedBy) == "azure-workload-identity-operator" && TagValue(u.tags, CreatedBy) == "true" &&
    TagValue(u.tags, ApiGroup) == "workloadidentity.azure.micosolutions.se" &&
    TagValue(u.tags, LogicalKeyTag) == key.ns + "/" + key.name
  }

  /** Some recovery is under way on the UAMI. */
  predicate UnderRecovery(u: Uami) { TagValue(u.tags, RecoveryUid) != "" && TagValue(u.tags, TargetUid) != "" }

  lemma ClassifyByTags(t: Ident, u: Uami)
    requires t.uid != ""
    ensures Classify(t, u) == Owned <==> BelongsTo(u, t.key, t.uid)
    ensures forall e :: Classify(t, u) == RecoveryRequired(e) <==> BelongsTo(u, t.key, e) && e != "" && e != t.uid
    ensures Classify(t, u) == RecoveryInProgress <==> UnderRecovery(u)
  {
    ClassifyIsExact(t, u);
    BaseOwnershipIs(t.key, u.tags);
    hide Classify;
    hide BaseOwnership;
  }

  /** The read of the UAMI in an ensure. */
  lemma EnsureReadDecides(st: Store, w: Wi, state: SaState, url: string, c: Choice)
    requires !c.fails && w.id.uid != ""
    ensures var n := NormalRead(st, w, NEnsure(state, url), c);
            n.NBusy? && n.w == w &&
            (n.at == NCreate(state, url) <==> st.uami.None? && !(w.recorded.Some? && EqualFold(w.recorded.value, st.uamiId))) &&
            (n.at.NFicGet? <==> st.uami.Some? && BelongsTo(st.uami.value, w.id.key, w.id.uid)) &&
            (n.at.NFicGet? ==> n.at.state == state && n.at.url == url && Reports(st, n.at.m)) &&
            (forall e :: n.at == NStatus(RequiredPatch(e)) <==>
               st.uami.Some? && BelongsTo(st.uami.value, w.id.key, e) && e != "" && e != w.id.uid) &&
            (n.at == NStatus(NotReadyPatch(ReasonRecoveryInProgress)) <==> st.uami.Some? && UnderRecovery(st.uami.value)) &&
            (n.at.NCreate? || n.at.NFicGet? || n.at.NStatus?)
  {
    if st.uami.Some? {
      ClassifyByTags(w.id, st.uami.value);
    }
    hide Classify;
    hide BelongsTo;
    hide UnderRecovery;
    hide EqualFold;
  }

  /** The read of the UAMI when the account has another owner. */
  lemma DetectReadDecides(st: Store, w: Wi, owner: Uid, c: Choice)
    requires w.id.uid != ""
    ensures var n := NormalRead(st, w, NDetect(owner), c);
            var found := !c.fails && st.uami.Some? && EqualFold(st.uami.value.id, st.uamiId);
            n.NBusy? && n.w == w && n.at.NStatus? &&
            (forall e :: n.at == NStatus(RequiredPatch(e)) <==>
               found && e == owner && BelongsTo(st.uami.value, w.id.key, e) && e != "" && e != w.id.uid) &&
            (n.at == NStatus(NotReadyPatch(ReasonRecoveryInProgress)) <==> found && UnderRecovery(st.uami.value)) &&
            (n.at.patch.RequiredPatch? || n.at.patch == NotReadyPatch(ReasonRecoveryInProgress) ||
             n.at.patch == NotReadyPatch(ReasonOther("ServiceAccountConflict")))
  {
    if st.uami.Some? {
      ClassifyByTags(w.id, st.uami.value);
    }
    hide Classify;
    hide BelongsTo;
    hide UnderRecovery;
    hide EqualFold;
  }

  /** The read of the UAMI in a deletion: only an owned one is deleted, only one left by an earlier instance
      is kept for a recovery. */
  lemma DeleteReadDecides(st: Store, w: Wi, c: Choice)
    requires w.id.uid != ""
    ensures var n := NormalRead(st, w, NDeleteGet, c);
            var answered := !c.fails && c.configured;
            (n == NBusy(w, NDeleteUami) <==> answered && st.uami.Some? && BelongsTo(st.uami.value, w.id.key, w.id.uid)) &&
            (n == NBusy(w, NDeleteSaGet) <==> answered && st.uami.None?) &&
            (n == NBusy(w, NRemoveFinalizer) <==>
               answered && st.uami.Some? && BelongsTo(st.uami.value, w.id.key, Owner(st.uami.value)) &&
               Owner(st.uami.value) != "" && Owner(st.uami.value) != w.id.uid) &&
            (n.NIdle? || n == NBusy(w, NDeleteUami) || n == NBusy(w, NDeleteSaGet) || n == NBusy(w, NRemoveFinalizer))
  {
    if st.uami.Some? {
      ClassifyByTags(w.id, st.uami.value);
    }
    hide Classify;
    hide BelongsTo;
    hide UnderRecovery;
  }

  /** The target carries evidence and waits for a recovery to begin or to end. */
  predicate Waits(w: Wi) {
    w.evidence.Some? && w.ready.Some? && w.ready.value.status == StatusFalse &&
    w.ready.value.reason in {ReasonRecoveryRequired, ReasonRecoveryInProgress}
  }

  /** The issuer's answer: a waiting target keeps its status while the issuer is not ready. */
  lemma IssuerReadDecides(st: Store, w: Wi, c: Choice)
    ensures var n := NormalRead(st, w, NIssuer, c);
            (n == NIdle <==> c.issuer.None? && Waits(w)) &&
            (n == NBusy(w, NStatus(NotReadyPatch(ReasonOther("OIDCIssuerNotReady")))) <==> c.issuer.None? && !Waits(w)) &&
            (forall url :: n == NBusy(w, NInspect(url)) <==> c.issuer == Some(url) && c.configured)
  {
  }

  /** The read of the credential: only the exact trust of this account in this issuer is left as it is. */
  lemma CredentialReadDecides(st: Store, w: Wi, state: SaState, url: string, m: Managed, c: Choice)
    requires !c.fails
    ensures var n := NormalRead(st, w, NFicGet(state, url, m), c);
            var trust := Tuple(url, "system:serviceaccount:" + w.id.key.ns + ":" + w.id.saName, ["api://AzureADTokenExchange"]);
            var found := FindFic(w.id.ficName, st.fics);
            (n == NBusy(w, NSaGet(state, m)) <==> st.uami.Some? && found.Some? && found.value.tuple == Some(trust)) &&
            (n == NBusy(w, NSaGet(state, m)) || n == NBusy(w, NFicPut(state, url, m)))
    ensures NormalTuple(w, url) == Tuple(url, "system:serviceaccount:" + w.id.key.ns + ":" + w.id.saName, ["api://AzureADTokenExchange"])
  {
    hide FindFic;
  }

  /** The target carries evidence, is not ready, and a recovery has begun on it. */
  predicate InRecovery(w: Wi) {
    w.evidence.Some? && w.ready.Some? && w.ready.value.status == StatusFalse && w.ready.value.reason == ReasonRecoveryInProgress
  }

  /** A reconcile keeps away from an object in recovery, live or deleted; else a live object gets its
      finalizer first, and a deleted one is cleaned up exactly under the policy Delete. */
  lemma EntryDecides(w: Wi)
    ensures NormalEnter(w) == NIdle <==> if w.deleting then !w.finalizer || InRecovery(w) else w.finalizer && InRecovery(w)
    ensures NormalEnter(w) == NBusy(w, NAddFinalizer) <==> !w.deleting && !w.finalizer
    ensures NormalEnter(w) == NBusy(w, NIssuer) <==> !w.deleting && w.finalizer && !InRecovery(w)
    ensures NormalEnter(w) == NBusy(w, NDeleteGet) <==> w.deleting && w.finalizer && !InRecovery(w) && w.deletePolicy
    ensures NormalEnter(w) == NBusy(w, NRemoveFinalizer) <==> w.deleting && w.finalizer && !InRecovery(w) && !w.deletePolicy
  {
  }

  // ---------------------------------------------------------------- the account

  /** The account belongs to somebody else, is the operator's without an owner, or is unknown and already
      names an identity. */
  predicate Refused(w: Wi, state: SaState, sa: Sa) {
    (Label(sa, OwnerLabel) != "" && Label(sa, OwnerLabel) != w.id.uid) ||
    (Label(sa, OwnerLabel) == "" && Label(sa, ManagedByLabel) == "azure-workload-identity-operator") ||
    (state.NotEstablished? && (Annotation(sa, ClientIdAnnotation) != "" || Annotation(sa, TenantIdAnnotation) != ""))
  }

  /** The relationship that is recorded in the end: the established one, or Created for an account that is
      not there and Adopted for one that is. */
  function Becomes(state: SaState, there: bool): Provenance {
    if state.Established? then state.provenance else if there then Adopted else Created
  }

  /** The read of the account in an ensure: an absent one is created, a refused one is left, an equipped one
      is kept, and any other is patched in the operator's own labels and annotations alone. */
  lemma AccountReadDecides(st: Store, w: Wi, state: SaState, m: Managed, c: Choice)
    requires !c.fails && w.id.uid != ""
    ensures var n := NormalRead(st, w, NSaGet(state, m), c);
            n.NBusy? && n.w == w &&
            (n.at.NSaCreate? <==> st.sa.None?) &&
            (n.at.NSaCreate? ==> n.at == NSaCreate(Becomes(state, false), m)) &&
            (n.at == NStatus(NotReadyPatch(ReasonOther("ServiceAccountConflict"))) <==> st.sa.Some? && Refused(w, state, st.sa.value)) &&
            (n.at.NSaPatch? ==>
               n.at.provenance == Becomes(state, true) && n.at.labels.Keys <= {UseLabel, ManagedByLabel, OwnerLabel, CreatedByLabel} &&
               n.at.annotations.Keys <= {ClientIdAnnotation, TenantIdAnnotation}) &&
            (st.sa.Some? && !Refused(w, state, st.sa.value) && m.clientId != "" &&
             Equipped(st.sa.value, w.id.uid, Becomes(state, true), m.clientId, m.tenantId) ==>
               n.at == NStatus(ReadyPatch(Becomes(state, true), st.sa.value.uid, st.uamiId)))
  {
    if st.sa.Some? && Equipped(st.sa.value, w.id.uid, Becomes(state, true), m.clientId, m.tenantId) && m.clientId != "" {
      EquippedIsKept(w, st.sa.value, Becomes(state, true), m);
    }
  }

  lemma EquippedIsKept(w: Wi, sa: Sa, p: Provenance, m: Managed)
    requires w.id.uid != "" && m.clientId != "" && Equipped(sa, w.id.uid, p, m.clientId, m.tenantId)
    ensures sa.labels + DesiredLabels(w.id.uid, p == Created) == sa.labels
    ensures sa.annotations + DesiredAnnotations(m.clientId, m.tenantId) == sa.annotations
  {
    assert (sa.labels + DesiredLabels(w.id.uid, p == Created)).Keys == sa.labels.Keys;
    assert (sa.annotations + DesiredAnnotations(m.clientId, m.tenantId)).Keys == sa.annotations.Keys;
  }

  // ---------------------------------------------------------------- the writes

  /** A created UAMI is the instance's own, carries no marker of a recovery and has no credential. */
  lemma CreationMeans(st: Store, w: Wi, state: SaState, url: string, c: Choice)
    requires !c.fails && st.uami.None? && w.id.uid != ""
    ensures var st' := NormalWrite(st, w, NCreate(state, url), c);
            st'.uami.Some? && st' == st.(uami := st'.uami, fics := []) && BelongsTo(st'.uami.value, w.id.key, w.id.uid) &&
            st'.uami.value == Uami(st.uamiId, c.clientId, c.principalId, c.tenantId, st'.uami.value.tags) &&
            (forall k: TagKey | k.Other? :: k !in st'.uami.value.tags)
  {
    ClassifyByTags(w.id, CreateUami(st, w, c).uami.value);
  }

  /** The credential write puts the trust of the account under the configured name and leaves every other
      credential. */
  lemma CredentialWriteMeans(st: Store, w: Wi, state: SaState, url: string, m: Managed, c: Choice)
    requires !c.fails && st.uami.Some?
    ensures var st' := NormalWrite(st, w, NFicPut(state, url, m), c);
            st' == st.(fics := st'.fics) &&
            FindFic(w.id.ficName, st'.fics).Some? && FindFic(w.id.ficName, st'.fics).value.tuple == Some(NormalTuple(w, url)) &&
            forall other: string | !EqualFold(other, w.id.ficName) :: FindFic(other, st'.fics) == FindFic(other, st.fics)
  {
    UpsertThenFind(st.uamiId, w.id.ficName, NormalTuple(w, url), st.fics);
    hide Upsert;
    hide FindFic;
  }

  /** The merge patch sets what it carries and keeps everything else on the account. */
  lemma AccountPatchMeans(st: Store, w: Wi, p: Provenance, labels: Labels, annotations: Annotations, c: Choice)
    requires !c.fails && st.sa.Some?
    ensures var st' := NormalWrite(st, w, NSaPatch(p, labels, annotations), c);
            st'.sa.Some? && st' == st.(sa := st'.sa, clock := st'.clock) && st'.sa.value.uid == st.sa.value.uid &&
            (forall k :: Label(st'.sa.value, k) == if k in labels then labels[k] else Label(st.sa.value, k)) &&
            (forall k :: Annotation(st'.sa.value, k) == if k in annotations then annotations[k] else Annotation(st.sa.value, k))
  {
  }

  // ---------------------------------------------------------------- the status

  /** What the status patches say. Evidence is kept only while a recovery is in progress. */
  lemma StatusPatchesMean(w: Wi, p: WiPatch)
    ensures var w' := ApplyWiPatch(w, p);
            w'.ready.Some? && w'.ready.value.gen == w.gen && (w'.ready.value.status == StatusTrue <==> p.ReadyPatch?) &&
            (w'.ready.value.status == StatusFalse <==> !p.ReadyPatch?) &&
            w'.evidence == (if p.RequiredPatch? then Some(p.evidence)
                            else if p == NotReadyPatch(ReasonRecoveryInProgress) then w.evidence else None) &&
            (p.RequiredPatch? ==> w'.ready.value.reason == ReasonRecoveryRequired) &&
            (p.NotReadyPatch? ==> w'.ready.value.reason == p.reason)
    ensures var w' := ApplyWiPatch(w, p);
            w' == w.(evidence := w'.evidence, ready := w'.ready, subject := w'.subject, saUid := w'.saUid,
                     provenance := w'.provenance, recorded := w'.recorded) &&
            if p.ReadyPatch? then
              w'.subject == "system:serviceaccount:" + w.id.key.ns + ":" + w.id.saName && w'.saUid == p.saUid &&
              w'.provenance == Some(p.provenance) && w'.recorded == Some(p.recorded)
            else w'.subject == w.subject && w'.saUid == w.saUid && w'.provenance == w.provenance && w'.recorded == w.recorded
  {
  }

  /** Ready=True that lands, in any run, is true of the UAMI at that moment: it is there, it is the instance's
      own and no recovery has a marker on it; and it is the UAMI that is recorded. */
  lemma ReadyIsHonest(s0: State, run: seq<Action>, c: Choice)
    requires Init(s0)
    requires var s := Run(s0, run);
             s.normal.NBusy? && s.normal.at.NStatus? && s.normal.at.patch.ReadyPatch? && Current(s.st, s.normal.w)
    ensures var s, s' := Run(s0, run), Apply(Run(s0, run), NormalCall(c));
            s'.st.wi.Some? && s'.st.wi.value.ready.Some? && s'.st.wi.value.ready.value.status == StatusTrue &&
            s'.st.uami == s.st.uami && s'.st.uami.Some? && s'.st.wi.value.recorded == Some(s'.st.uamiId) &&
            TagValue(s'.st.uami.value.tags, OwnerUid) == s'.st.wi.value.id.uid &&
            TagValue(s'.st.uami.value.tags, RecoveryUid) == "" && TagValue(s'.st.uami.value.tags, TargetUid) == ""
  {
    ReachableIsSafe(s0, run);
    ReachableCarries(s0, run);
    var s := Run(s0, run);
    assert StatusAt(s.st, s.normal.w, s.normal.at.patch);
    hide Run;
    hide Init;
    hide Global;
    hide WorkerOk;
    hide LockedWi;
    hide KeepsProvenance;
    hide Subject;
  }
}
