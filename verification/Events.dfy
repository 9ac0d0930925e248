/** The watch predicates: an update they drop changes no decision of the reconciler they feed
    (internal/controller/event_predicates.go). */
module Events {
  import opened OwnershipTags
  import opened Azure
  import opened Resources
  import opened Target
  import opened ServiceAccounts
  import opened Protocol
  import opened Invariant
  import opened Safety
  import opened LockTheorems

  // ---------------------------------------------------------------- WorkloadIdentity updates

  /** primaryResourceUpdate on the two metadata fields it reads. */
  predicate PrimaryUpdate(oldGen: nat, oldDeleting: bool, newGen: nat, newDeleting: bool) {
    oldGen != newGen || (!oldDeleting && newDeleting)
  }

  predicate WiPrimaryUpdate(o: Wi, n: Wi) { PrimaryUpdate(o.gen, o.deleting, n.gen, n.deleting) }

  function PreviousUid(w: Wi): Uid { if w.evidence.Some? then w.evidence.value else "" }

  /** workloadIdentityRecoveryStateChanged. */
  predicate RecoveryStateChanged(o: Wi, n: Wi) {
    if PreviousUid(o) != PreviousUid(n) then true
    else if o.evidence.None? && n.evidence.None? then false
    else if o.ready.None? || n.ready.None? then o.ready.None? != n.ready.None?
    else
      o.ready.value.status != n.ready.value.status || o.ready.value.reason != n.ready.value.reason ||
      o.ready.value.gen != n.ready.value.gen
  }

  /** workloadIdentityRecoveryTargetPredicate: what the recovery controller is told. */
  predicate TargetPredicate(o: Wi, n: Wi) { WiPrimaryUpdate(o, n) || RecoveryStateChanged(o, n) }

  /** workloadIdentityRecoveryWakeTransition. */
  predicate WakeTransition(o: Wi, n: Wi) {
    if !LockedWi(o) && LockedWi(n) then true
    else if n.ready.None? || n.ready.value.status != StatusFalse then false
    else if o.ready.Some? && o.ready.value.status == n.ready.value.status && o.ready.value.reason == n.ready.value.reason then false
    else n.ready.value.reason == ReasonRecoveryCompleted || n.ready.value.reason == ReasonRecoveryCancelled
  }

  /** workloadIdentityPrimaryPredicate: what the normal reconciler is told. */
  predicate PrimaryPredicate(o: Wi, n: Wi) { WiPrimaryUpdate(o, n) || WakeTransition(o, n) }

  /** What the recovery controller is told of a target: a new spec, the begin of a deletion, other evidence,
      and while there is evidence every change of Ready. */
  lemma TargetUpdatesDelivered(o: Wi, n: Wi)
    ensures TargetPredicate(o, n) <==>
              o.gen != n.gen || (n.deleting && !o.deleting) || PreviousUid(o) != PreviousUid(n) ||
              ((o.evidence.Some? || n.evidence.Some?) && o.ready != n.ready)
  {
  }

  /** Under Ready=False for this reason. */
  predicate Stopped(w: Wi, reason: Reason) { w.ready.Some? && w.ready.value.status == StatusFalse && w.ready.value.reason == reason }

  predicate Locks(w: Wi) { w.evidence.Some? && Stopped(w, ReasonRecoveryInProgress) }

  /** What the normal reconciler is told of an object: a new spec, the begin of a deletion, and of its status
      no more than the begin and the end of a recovery. */
  lemma PrimaryUpdatesDelivered(o: Wi, n: Wi)
    ensures PrimaryPredicate(o, n) <==>
              o.gen != n.gen || (n.deleting && !o.deleting) || (Locks(n) && !Locks(o)) ||
              (Stopped(n, ReasonRecoveryCompleted) && !Stopped(o, ReasonRecoveryCompleted)) ||
              (Stopped(n, ReasonRecoveryCancelled) && !Stopped(o, ReasonRecoveryCancelled))
  {
  }

  /** The reasons the normal reconciler publishes: never the end of a recovery. */
  ghost predicate PublishesOwn(n: Normal) {
    n.NBusy? && n.at.NStatus? && n.at.patch.NotReadyPatch? ==>
      n.at.patch.reason != ReasonRecoveryCompleted && n.at.patch.reason != ReasonRecoveryCancelled
  }

  lemma NormalPublishesOwn(s: State, c: Choice)
    requires PublishesOwn(s.normal)
    ensures PublishesOwn(StepNormal(s, c).normal)
  {
    hide Inspect;
    hide Classify;
    hide DecideEnsure;
    hide NormalWrite;
  }

  lemma {:induction false} ReachablePublishesOwn(s0: State, run: seq<Action>)
    requires Init(s0)
    ensures PublishesOwn(Run(s0, run).normal)
    decreases |run|
  {
    if run != [] {
      var n := |run| - 1;
      ReachablePublishesOwn(s0, run[..n]);
      var s := Run(s0, run[..n]);
      hide Run;
      hide Init;
      match run[n]
      case NormalCall(c) => NormalPublishesOwn(s, c); hide StepNormal;
      case _ => hide StepWorker; hide EditedTags;
    }
  }

  /** In every run, a status the normal reconciler publishes wakes it only by a lock, and then the reconcile
      it wakes keeps away: no reconcile feeds itself. */
  lemma NoReconcileWakesItself(s0: State, run: seq<Action>, c: Choice)
    requires Init(s0)
    requires var s := Run(s0, run); s.normal.NBusy? && s.normal.at.NStatus? && Current(s.st, s.normal.w)
    ensures var s, s' := Run(s0, run), Apply(Run(s0, run), NormalCall(c));
            s.st.wi.Some? && s'.st.wi.Some? &&
            (PrimaryPredicate(s.st.wi.value, s'.st.wi.value) <==> Locks(s'.st.wi.value) && !Locks(s.st.wi.value)) &&
            (PrimaryPredicate(s.st.wi.value, s'.st.wi.value) ==> NormalEnter(s'.st.wi.value) == NIdle)
  {
    ReachableIsSafe(s0, run);
    ReachablePublishesOwn(s0, run);
    var s := Run(s0, run);
    hide Run;
    hide Init;
    PublishedIsSeen(s, c);
  }

  lemma PublishedIsSeen(s: State, c: Choice)
    requires Inv(s) && PublishesOwn(s.normal) && s.normal.NBusy? && s.normal.at.NStatus? && Current(s.st, s.normal.w)
    ensures s.st.wi == Some(s.normal.w)
    ensures var s' := StepNormal(s, c);
            s'.st.wi.Some? &&
            (PrimaryPredicate(s.normal.w, s'.st.wi.value) <==> Locks(s'.st.wi.value) && !Locks(s.normal.w)) &&
            (Locks(s'.st.wi.value) ==> NormalEnter(s'.st.wi.value) == NIdle)
  {
    hide Global;
    hide WorkerOk;
  }

  /** Two versions of one object: the identity never changes and a deletion is never taken back. */
  predicate Successive(o: Wi, n: Wi) { o.id == n.id && (o.deleting ==> n.deleting) }

  /** A dropped update of the target leaves the verdict of every recovery as it was. */
  lemma DroppedTargetUpdateHidesNoVerdict(o: Wi, n: Wi, r: Recovery)
    requires Successive(o, n) && !TargetPredicate(o, n) && r.source != ""
    ensures Validate(r, o) == Validate(r, n)
  {
    if o.evidence != n.evidence {
      assert PreviousUid(o) == "";
    }
  }

  /** Without the admission rule the claim is false: evidence that names the empty UID is taken for
      no evidence at all. */
  lemma EmptyPreviousUidIsHidden(o: Wi, n: Wi, r: Recovery)
    requires o.evidence == None && n == o.(evidence := Some("")) &&
             o.ready == Some(Ready(StatusFalse, ReasonRecoveryInProgress, o.gen))
    requires r.source == "" && r.target == o.id.uid && r.target != ""
    ensures !TargetPredicate(o, n) && Validate(r, o) != Validate(r, n)
  {
  }

  /** Every lock and every release that a recovery writes reaches both controllers. */
  lemma LockAndReleaseAreDelivered(s: State, c: Choice)
    requires s.worker.Busy? && s.worker.u in s.st.recs
    requires s.worker.at.LockTarget? || s.worker.at.ReleaseCompleted? || s.worker.at.ReleaseCancelled?
    requires Apply(s, WorkerCall(c)).st.wi != s.st.wi
    ensures var st' := Apply(s, WorkerCall(c)).st;
            s.st.wi.Some? && st'.wi.Some? && Successive(s.st.wi.value, st'.wi.value) &&
            (s.st.wi.value.ready.value.reason != st'.wi.value.ready.value.reason ==>
               PrimaryPredicate(s.st.wi.value, st'.wi.value) && TargetPredicate(s.st.wi.value, st'.wi.value))
  {
  }

  /** In every run, whatever ends a lock wakes the normal reconciler. */
  lemma EveryUnlockWakes(s0: State, run: seq<Action>, a: Action)
    requires Init(s0)
    requires var s := Run(s0, run); LockGone(s.st, Apply(s, a).st)
    ensures var s, s' := Run(s0, run), Apply(Run(s0, run), a);
            s'.st.wi.Some? && PrimaryPredicate(s.st.wi.value, s'.st.wi.value)
  {
    var s := Run(s0, run);
    ReachableIsSafe(s0, run);
    OnlyReleaseEndsLock(s, a);
    hide Run;
    hide Init;
    hide Inv;
    UnlockingRelease(s, a);
  }

  lemma UnlockingRelease(s: State, a: Action)
    requires LockGone(s.st, Apply(s, a).st) && exists r :: Releases(s, a, r)
    ensures Apply(s, a).st.wi.Some? && PrimaryPredicate(s.st.wi.value, Apply(s, a).st.wi.value)
  {
    hide Read;
    hide AfterWrite;
    hide NoneStarted;
    hide CondTrue;
  }

  // ---------------------------------------------------------------- OIDCIssuer updates

  datatype Issuer = Issuer(gen: nat, deleting: bool, ready: Option<CondStatus>, url: string)

  /** isOIDCIssuerReady. */
  predicate IssuerReady(i: Issuer) { i.ready == Some(StatusTrue) && i.url != "" }

  /** oidcIssuerDependencyPredicate. */
  predicate IssuerPredicate(o: Issuer, n: Issuer) {
    PrimaryUpdate(o.gen, o.deleting, n.gen, n.deleting) || o.url != n.url || IssuerReady(o) != IssuerReady(n)
  }

  /** What a reconcile takes from the issuer. */
  function IssuerView(i: Issuer): Option<string> { if IssuerReady(i) then Some(i.url) else None }

  /** What the normal reconciler is told of its issuer: a new spec, the begin of a deletion, a new URL, and a
      change of readiness. */
  lemma IssuerUpdatesDelivered(o: Issuer, n: Issuer)
    ensures IssuerPredicate(o, n) <==>
              o.gen != n.gen || (n.deleting && !o.deleting) || o.url != n.url || IssuerView(o) != IssuerView(n)
  {
  }

  /** A dropped issuer update leaves both the readiness and the URL a reconcile sees. */
  lemma DroppedIssuerUpdateHidesNothing(o: Issuer, n: Issuer)
    requires !IssuerPredicate(o, n)
    ensures IssuerView(o) == IssuerView(n)
  {
  }

  // ---------------------------------------------------------------- ServiceAccount updates

  /** serviceAccountDependencyPredicate: the loops over the four labels and two annotations. */
  predicate AccountPredicate(o: Sa, oDeleting: bool, n: Sa, nDeleting: bool) {
    (!oDeleting && nDeleting) ||
    (exists k | k in {UseLabel, ManagedByLabel, OwnerLabel, CreatedByLabel} :: Label(o, k) != Label(n, k)) ||
    (exists k | k in {ClientIdAnnotation, TenantIdAnnotation} :: Annotation(o, k) != Annotation(n, k))
  }

  /** The kind of an ensure decision; a patch also rewrites keys of others to what they already are. */
  datatype DecisionKind = Creates | Patches | Keeps | Refuses

  function KindOf(d: EnsureDecision): (DecisionKind, Option<Provenance>) {
    match d
    case CreateAccount(p) => (Creates, Some(p))
    case PatchAccount(p, _, _) => (Patches, Some(p))
    case KeepAccount(p, _) => (Keeps, Some(p))
    case RefuseAccount => (Refuses, None)
  }

  lemma SameLookups(o: Sa, n: Sa)
    requires !AccountPredicate(o, false, n, false)
    ensures forall k: LabelKey | !k.OtherLabel? :: Label(o, k) == Label(n, k)
    ensures forall k: AnnotationKey | !k.OtherAnnotation? :: Annotation(o, k) == Annotation(n, k)
  {
    forall k: LabelKey | !k.OtherLabel?
      ensures Label(o, k) == Label(n, k)
    {
      match k
      case UseLabel => assert UseLabel in {UseLabel, ManagedByLabel, OwnerLabel, CreatedByLabel};
      case ManagedByLabel => assert ManagedByLabel in {UseLabel, ManagedByLabel, OwnerLabel, CreatedByLabel};
      case OwnerLabel => assert OwnerLabel in {UseLabel, ManagedByLabel, OwnerLabel, CreatedByLabel};
      case CreatedByLabel => assert CreatedByLabel in {UseLabel, ManagedByLabel, OwnerLabel, CreatedByLabel};
    }
    assert ClientIdAnnotation in {ClientIdAnnotation, TenantIdAnnotation} && TenantIdAnnotation in {ClientIdAnnotation, TenantIdAnnotation};
    forall k: AnnotationKey | !k.OtherAnnotation?
      ensures Annotation(o, k) == Annotation(n, k)
    {
      match k
      case ClientIdAnnotation =>
      case TenantIdAnnotation =>
    }
  }

  /** What the normal reconciler is told of an account: the begin of a deletion, and a change under a key of
      the operator; nothing else that happens to it. */
  lemma AccountUpdatesDelivered(o: Sa, oDeleting: bool, n: Sa, nDeleting: bool)
    ensures AccountPredicate(o, oDeleting, n, nDeleting) <==>
              (nDeleting && !oDeleting) || Label(o, UseLabel) != Label(n, UseLabel) || Label(o, ManagedByLabel) != Label(n, ManagedByLabel) ||
              Label(o, OwnerLabel) != Label(n, OwnerLabel) || Label(o, CreatedByLabel) != Label(n, CreatedByLabel) ||
              Annotation(o, ClientIdAnnotation) != Annotation(n, ClientIdAnnotation) ||
              Annotation(o, TenantIdAnnotation) != Annotation(n, TenantIdAnnotation)
  {
    hide Label;
    hide Annotation;
  }

  /** A dropped account update changes none of the read-only decisions. */
  lemma DroppedAccountUpdateHidesNoInspection(o: Sa, n: Sa, w: Wi, source: Uid, target: Uid, plan: Plan)
    requires !AccountPredicate(o, false, n, false)
    ensures Inspect(w, Some(o)) == Inspect(w, Some(n)) && (Deletable(w, o) <==> Deletable(w, n))
    ensures RecoverableSa(source, target, o) <==> RecoverableSa(source, target, n)
    ensures FieldsMatch(target, plan, o) <==> FieldsMatch(target, plan, n)
  {
    SameLookups(o, n);
    hide Label;
    hide Annotation;
    hide AccountPredicate;
  }

  /** Nothing to write means that every desired key already reads as desired. */
  lemma NothingToWrite(labels: Labels, uid: Uid, created: bool)
    requires uid != ""
    ensures var sa := Sa("", 0, labels, map[]);
            labels + DesiredLabels(uid, created) == labels <==>
              Label(sa, UseLabel) == TRUE_VALUE && Label(sa, ManagedByLabel) == OPERATOR_NAME && Label(sa, OwnerLabel) == uid &&
              Label(sa, CreatedByLabel) == FormatBool(created)
  {
    var desired := DesiredLabels(uid, created);
    assert desired[UseLabel] == TRUE_VALUE && desired[ManagedByLabel] == OPERATOR_NAME && desired[OwnerLabel] == uid &&
           desired[CreatedByLabel] == FormatBool(created);
    if labels + desired == labels {
      assert (labels + desired)[UseLabel] == TRUE_VALUE && (labels + desired)[ManagedByLabel] == OPERATOR_NAME;
      assert (labels + desired)[OwnerLabel] == uid && (labels + desired)[CreatedByLabel] == FormatBool(created);
    }
  }

  lemma NothingToAnnotate(annotations: Annotations, clientId: string, tenantId: string)
    requires clientId != ""
    ensures var sa := Sa("", 0, map[], annotations);
            annotations + DesiredAnnotations(clientId, tenantId) == annotations <==>
              Annotation(sa, ClientIdAnnotation) == clientId && (tenantId != "" ==> Annotation(sa, TenantIdAnnotation) == tenantId)
  {
    var desired := DesiredAnnotations(clientId, tenantId);
    assert desired[ClientIdAnnotation] == clientId;
    if annotations + desired == annotations {
      assert (annotations + desired)[ClientIdAnnotation] == clientId;
      if tenantId != "" {
        assert (annotations + desired)[TenantIdAnnotation] == tenantId;
      }
    }
  }

  lemma DroppedAccountUpdateHidesNoEnsure(o: Sa, n: Sa, w: Wi, state: SaState, clientId: string, tenantId: string)
    requires !AccountPredicate(o, false, n, false) && w.id.uid != "" && clientId != ""
    ensures KindOf(DecideEnsure(w, state, clientId, tenantId, Some(o))) == KindOf(DecideEnsure(w, state, clientId, tenantId, Some(n)))
  {
    SameLookups(o, n);
    var created := state.Established? && state.provenance == Created;
    NothingToWrite(o.labels, w.id.uid, created);
    NothingToWrite(n.labels, w.id.uid, created);
    NothingToAnnotate(o.annotations, clientId, tenantId);
    NothingToAnnotate(n.annotations, clientId, tenantId);
    LookupsIgnoreTheRest(o);
    LookupsIgnoreTheRest(n);
    hide AccountPredicate;
    hide DesiredLabels;
    hide DesiredAnnotations;
    hide Label;
    hide Annotation;
  }

  lemma LookupsIgnoreTheRest(sa: Sa)
    ensures forall k :: Label(Sa("", 0, sa.labels, map[]), k) == Label(sa, k)
    ensures forall k :: Annotation(Sa("", 0, map[], sa.annotations), k) == Annotation(sa, k)
  {
  }

  /** Dropped updates never change the ensure decision for an established account exactly when the
      managed identity has a client ID: an absent and an empty client-id annotation look the
      same to the predicate, but only the present one spares the patch. */
  lemma EnsureIsNeverHiddenExactly(w: Wi, p: Provenance, clientId: string, tenantId: string)
    requires w.id.uid != ""
    ensures clientId != "" <==>
              forall o: Sa, n: Sa | !AccountPredicate(o, false, n, false) ::
                KindOf(DecideEnsure(w, Established(p), clientId, tenantId, Some(o))) ==
                KindOf(DecideEnsure(w, Established(p), clientId, tenantId, Some(n)))
  {
    if clientId != "" {
      forall o: Sa, n: Sa | !AccountPredicate(o, false, n, false)
        ensures KindOf(DecideEnsure(w, Established(p), clientId, tenantId, Some(o))) ==
                KindOf(DecideEnsure(w, Established(p), clientId, tenantId, Some(n)))
      {
        DroppedAccountUpdateHidesNoEnsure(o, n, w, Established(p), clientId, tenantId);
      }
    } else {
      var labels := DesiredLabels(w.id.uid, p == Created);
      var bare: Annotations := if tenantId != "" then map[TenantIdAnnotation := tenantId] else map[];
      var o, n := Sa("", 0, labels, bare), Sa("", 0, labels, bare[ClientIdAnnotation := ""]);
      assert !AccountPredicate(o, false, n, false);
      assert ClientIdAnnotation in o.annotations + DesiredAnnotations(clientId, tenantId);
      assert n.annotations + DesiredAnnotations(clientId, tenantId) == n.annotations;
      assert labels + labels == labels;
      assert Label(o, OwnerLabel) == w.id.uid && Label(n, OwnerLabel) == w.id.uid;
      assert DecideEnsure(w, Established(p), clientId, tenantId, Some(o)).PatchAccount?;
      assert DecideEnsure(w, Established(p), clientId, tenantId, Some(n)).KeepAccount?;
    }
  }
}
