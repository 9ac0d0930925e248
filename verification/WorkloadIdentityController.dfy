/** The normal reconciler as it is written: Reconcile, the Azure ensure and delete operations, and
    the ServiceAccount half (internal/controller/workloadidentity_controller.go and
    internal/azure/workload_identity.go), made of API calls between which anybody may act. */
module WorkloadIdentityController {
  import opened OwnershipTags
  import opened Azure
  import opened Resources
  import opened ServiceAccounts
  import opened Protocol
  import opened Invariant
  import opened Safety
  import opened Handover
  import opened Cluster
  import opened IdentityTheorems
  import opened NormalClient

  /** The error of an ensure operation, as handleWorkloadIdentityEnsureError tells them apart. */
  datatype EnsureError = RecoveryRequiredError(previous: Uid) | RecoveryInProgressError | OtherError(reason: string)

  datatype EnsureOutcome = Ensured | Rejected(error: EnsureError) | Stopped

  /** The status patch an error leads to. */
  function PatchFor(e: EnsureError): WiPatch {
    match e
    case RecoveryRequiredError(previous) => RequiredPatch(previous)
    case RecoveryInProgressError => NotReadyPatch(ReasonRecoveryInProgress)
    case OtherError(reason) => NotReadyPatch(ReasonOther(reason))
  }

  /** The account has everything the operator wants on it. */
  predicate Carries(sa: Sa, uid: Uid, p: Provenance, m: Managed) {
    sa.labels + DesiredLabels(uid, p == Created) == sa.labels &&
    sa.annotations + DesiredAnnotations(m.clientId, m.tenantId) == sa.annotations
  }

  /** Carrying everything is being equipped. */
  lemma CarriesMeans(sa: Sa, uid: Uid, p: Provenance, m: Managed)
    requires Carries(sa, uid, p, m)
    ensures Equipped(sa, uid, p, m.clientId, m.tenantId)
  {
    DesiredEquips(sa, uid, p, m.clientId, m.tenantId);
  }

  /** Nothing of w is left but its finalizer, or its UAMI is kept for a recovery. */
  ghost predicate Cleared(st: Store, w: Wi) {
    !w.deletePolicy ||
    (st.uami.Some? && Classify(w.id, st.uami.value).RecoveryRequired?) ||
    (st.uami.None? && (st.sa.Some? ==> !MadeFor(w, st.sa.value)))
  }

  /** The run had reached such stores after k actions. */
  ghost predicate ClearedAt(start: State, log: seq<Action>, w: Wi, k: nat) {
    k <= |log| && Cleared(Run(start, log[..k]).st, w)
  }

  lemma ClearedNow(start: State, log: seq<Action>, s: State, w: Wi)
    requires s == Run(start, log) && Cleared(s.st, w)
    ensures ClearedAt(start, log, w, |log|)
  {
    hide Run;
    hide Cleared;
    assert log[..|log|] == log;
  }

  lemma ClearedStays(start: State, log: seq<Action>, later: seq<Action>, w: Wi, k: nat)
    requires ClearedAt(start, log, w, k) && log <= later
    ensures ClearedAt(start, later, w, k)
  {
    hide Run;
    hide Cleared;
    assert later[..k] == log[..k];
  }

  class WorkloadIdentityReconciler {
    const cluster: Cluster
    const client: NormalClient
    const configured: bool

    constructor (client: NormalClient, configured: bool)
      ensures this.client == client && this.cluster == client.cluster && this.configured == configured
    {
      this.client, this.cluster, this.configured := client, client.cluster, configured;
    }

    ghost predicate Stands(w: Wi, at: NAt)
      reads cluster
    {
      client.cluster == cluster && client.Stands(w, at)
    }

    ghost predicate Ended()
      reads cluster
    {
      client.cluster == cluster && client.Ended()
    }

    ghost predicate Crashed()
      reads cluster
    {
      client.cluster == cluster && client.Crashed()
    }

    ghost predicate Since(m: Mark)
      reads cluster
    {
      client.cluster == cluster && client.Since(m)
    }

    /** The last call of the reconcile sent this status patch of w. */
    ghost predicate Published(w: Wi, patch: WiPatch)
      reads cluster
    {
      Ended() && cluster.log != [] && cluster.log[|cluster.log| - 1].NormalCall? &&
      Run(cluster.start, cluster.log[..|cluster.log| - 1]).normal == NBusy(w, NStatus(patch))
    }

    /** The reconcile of w ended by publishing a status, unless the process died. */
    ghost predicate Reported(w: Wi)
      reads cluster
    {
      Ended() && (Crashed() || exists patch :: Published(w, patch))
    }

    /** How an operation ended: ready for the next call, for its error patch, or by a crash. */
    ghost predicate Left(w: Wi, outcome: EnsureOutcome, next: NAt)
      reads cluster
    {
      match outcome
      case Ensured => Stands(w, next)
      case Rejected(error) => Stands(w, NStatus(PatchFor(error)))
      case Stopped => Crashed()
    }

    /** The UAMI is w's own and carries no recovery marker. */
    ghost predicate OwnsIdentity(w: Wi)
      reads cluster
    {
      OwnedHere(cluster.Stores(), w)
    }

    lemma AtIsSafe(w: Wi, at: NAt)
      requires Stands(w, at)
      ensures NormalAt(cluster.Stores(), w, at)
    {
      ReachableIsSafe(cluster.start, cluster.log);
      hide Run;
      hide Init;
      hide Global;
      hide WorkerOk;
      hide Pinned;
      hide NormalAt;
      hide NormalTraced;
    }

    /** What is handed to the ServiceAccount half is the identity of the UAMI that is there. */
    ghost predicate HandsOn(m: Managed)
      reads cluster
    {
      cluster.uami.Some? && m.clientId == cluster.uami.value.clientId && m.tenantId == cluster.uami.value.tenantId
    }

    lemma HandsOnAt(w: Wi, at: NAt)
      requires Stands(w, at) && (at.NFicGet? || at.NFicPut? || at.NSaGet? || at.NSaCreate?)
      ensures HandsOn(at.m)
    {
      ReachableCarries(cluster.start, cluster.log);
      hide Run;
      hide Init;
      hide NormalTraced;
    }

    /** Between the ownership check and the ServiceAccount the UAMI stays w's own. */
    lemma OwnedAt(w: Wi, at: NAt)
      requires Stands(w, at) && (at.NFicGet? || at.NFicPut? || at.NSaGet?)
      ensures OwnsIdentity(w)
    {
      AtIsSafe(w, at);
      hide Run;
      hide Init;
      hide OwnedHere;
      hide NormalTraced;
    }

    lemma ProvenanceAt(w: Wi, p: Provenance, saUid: Uid, id: string)
      requires Stands(w, NStatus(ReadyPatch(p, saUid, id)))
      ensures Persisted(w).Some? ==> p == Persisted(w).value
    {
      AtIsSafe(w, NStatus(ReadyPatch(p, saUid, id)));
      hide Run;
      hide Init;
      hide OwnedHere;
      hide Persisted;
      hide NormalTraced;
    }

    // -------------------------------------------------------------- Azure

    /** validateUserAssignedIdentityOwnership as an ensure operation reports it. */
    function OwnershipErrorOf(w: Wi, u: Uami): Option<EnsureError> {
      match Classify(w.id, u)
      case Owned => None
      case RecoveryRequired(previous) => Some(RecoveryRequiredError(previous))
      case RecoveryInProgress => Some(RecoveryInProgressError)
      case OwnershipConflict => Some(OtherError("AzureResourceOwnershipConflict"))
    }

    /** ensureUserAssignedIdentity: find the identity or create it, and insist on owning it. */
    method EnsureUserAssignedIdentity(w: Wi, state: SaState, url: string) returns (outcome: EnsureOutcome, m: Managed)
      requires Stands(w, NEnsure(state, url))
      modifies cluster
      ensures Since(old(cluster.Sign())) && Left(w, outcome, NFicGet(state, url, m))
      ensures outcome.Ensured? ==> OwnsIdentity(w) && HandsOn(m)
    {
      hide Run;
      hide Init;
      hide NormalTraced;
      hide Classify;
      hide NormalWrite;
      hide WorkloadIdentityTags;
      hide OwnsIdentity;
      hide HandsOn;
      m := Managed("", "");
      var result, found := client.GetUami(w, NEnsure(state, url));
      if result == Died {
        return Stopped, m;
      }
      if result == Refused {
        return Rejected(OtherError("AzureEnsureFailed")), m;
      }
      if found.None? {
        if w.recorded.Some? && EqualFold(w.recorded.value, cluster.uamiId) {
          return Rejected(OtherError("AzureResourceOwnershipConflict")), m;
        }
        ghost var c, st;
        result, m, c, st := client.CreateIdentity(w, NCreate(state, url), WorkloadIdentityTags(w.id));
        if result == Died {
          return Stopped, m;
        }
        if result == Refused {
          return Rejected(OtherError("AzureEnsureFailed")), m;
        }
      } else {
        var error := OwnershipErrorOf(w, found.value);
        if error.Some? {
          return Rejected(error.value), m;
        }
        m := Managed(found.value.clientId, found.value.tenantId);
      }
      OwnedAt(w, NFicGet(state, url, m));
      HandsOnAt(w, NFicGet(state, url, m));
      return Ensured, m;
    }

    /** ensureFederatedIdentityCredential: keep, repair or create the one named credential. */
    method EnsureFederatedIdentityCredential(w: Wi, state: SaState, url: string, m: Managed) returns (outcome: EnsureOutcome)
      requires Stands(w, NFicGet(state, url, m))
      modifies cluster
      ensures Since(old(cluster.Sign())) && Left(w, outcome, NSaGet(state, m))
      ensures outcome.Ensured? ==> OwnsIdentity(w) && HandsOn(m)
    {
      hide Run;
      hide Init;
      hide NormalTraced;
      hide FindFic;
      hide NormalWrite;
      hide OwnsIdentity;
      hide HandsOn;
      var result, existing := client.GetCredential(w, NFicGet(state, url, m));
      if result == Died {
        return Stopped;
      }
      if result == Refused {
        return Rejected(OtherError("AzureEnsureFailed"));
      }
      var desired := NormalTuple(w, url);
      if existing.None? || existing.value.tuple != Some(desired) {
        ghost var c, st;
        result, c, st := client.PutCredential(w, NFicPut(state, url, m), desired);
        if result == Died {
          return Stopped;
        }
        if result == Refused {
          return Rejected(OtherError("AzureEnsureFailed"));
        }
      }
      OwnedAt(w, NSaGet(state, m));
      HandsOnAt(w, NSaGet(state, m));
      return Ensured;
    }

    /** Ensure. Success means that the UAMI is the caller's own, outside any recovery. */
    method Ensure(w: Wi, state: SaState, url: string) returns (outcome: EnsureOutcome, m: Managed)
      requires Stands(w, NEnsure(state, url))
      modifies cluster
      ensures Since(old(cluster.Sign())) && Left(w, outcome, NSaGet(state, m))
      ensures outcome.Ensured? ==> OwnsIdentity(w) && HandsOn(m)
    {
      hide Run;
      hide Init;
      hide NormalTraced;
      hide OwnsIdentity;
      hide HandsOn;
      outcome, m := EnsureUserAssignedIdentity(w, state, url);
      if outcome == Ensured {
        outcome := EnsureFederatedIdentityCredential(w, state, url, m);
      }
    }

    // -------------------------------------------------------------- ServiceAccount

    /** ensureServiceAccount: create, patch or keep the account, never somebody else's. Every error, a
        failed read among them, is left to be published. On success the account recorded is the one
        there now; it carries all the operator wants, unless somebody changed it between the read and
        the unversioned patch. */
    method EnsureServiceAccount(w: Wi, state: SaState, m: Managed)
      returns (outcome: EnsureOutcome, provenance: Provenance, saUid: Uid, ghost read: Option<Sa>, ghost written: Option<Sa>)
      requires Stands(w, NSaGet(state, m))
      modifies cluster
      ensures Since(old(cluster.Sign())) && Left(w, outcome, NStatus(ReadyPatch(provenance, saUid, cluster.uamiId)))
      ensures outcome.Ensured? && Persisted(w).Some? ==> provenance == Persisted(w).value
      ensures outcome.Ensured? ==> cluster.sa.Some? && cluster.sa.value.uid == saUid
      ensures outcome.Ensured? && read == written ==> Equipped(cluster.sa.value, w.id.uid, provenance, m.clientId, m.tenantId)
      ensures cluster.trace.Quiet? ==> read == written
    {
      hide Run;
      hide Init;
      hide NormalTraced;
      hide NormalWrite;
      hide DecideEnsure;
      hide Carries;
      provenance, saUid, read, written := Adopted, "", None, None;
      var result, found := client.GetServiceAccount(w, NSaGet(state, m));
      if result == Died {
        return Stopped, provenance, saUid, read, written;
      }
      if result == Refused {
        return Rejected(OtherError("ServiceAccountEnsureFailed")), provenance, saUid, read, written;
      }
      read, written := found, found;
      DecisionCarries(w, state, m, found);
      var decision := DecideEnsure(w, state, m.clientId, m.tenantId, found);
      match decision {
        case RefuseAccount =>
          return Rejected(OtherError("ServiceAccountConflict")), provenance, saUid, read, written;
        case KeepAccount(p, uid) =>
          provenance, saUid, outcome := p, uid, Ensured;
        case CreateAccount(p) =>
          provenance := p;
          outcome, saUid := CreateMissingAccount(w, m, p);
        case PatchAccount(p, labels, annotations) =>
          provenance := p;
          outcome, saUid, written := PatchFoundAccount(w, m, p, labels, annotations);
      }
      if outcome == Ensured {
        ProvenanceAt(w, provenance, saUid, cluster.uamiId);
        if read == written {
          CarriesMeans(cluster.sa.value, w.id.uid, provenance, m);
        }
      }
    }

    /** A kept account carries everything; a patch of the account it was computed from completes it. */
    lemma DecisionCarries(w: Wi, state: SaState, m: Managed, sa: Option<Sa>)
      ensures var d := DecideEnsure(w, state, m.clientId, m.tenantId, sa);
              (d.KeepAccount? ==> sa.Some? && d.saUid == sa.value.uid && Carries(sa.value, w.id.uid, d.provenance, m)) &&
              (d.PatchAccount? ==> sa.Some? && PatchCarries(sa.value, w.id.uid, d.provenance, m, d.labels, d.annotations)) &&
              (d.CreateAccount? ==> sa.None?)
    {
      if sa.Some? {
        var d := DecideEnsure(w, state, m.clientId, m.tenantId, sa);
        if d.PatchAccount? {
          ChangedCompletes(sa.value.labels, DesiredLabels(w.id.uid, d.provenance == Created));
          ChangedCompletes(sa.value.annotations, DesiredAnnotations(m.clientId, m.tenantId));
          PatchedTwice(sa.value.labels, DesiredLabels(w.id.uid, d.provenance == Created));
          PatchedTwice(sa.value.annotations, DesiredAnnotations(m.clientId, m.tenantId));
        }
      }
    }

    lemma PatchedTwice<K, V>(current: map<K, V>, desired: map<K, V>)
      ensures current + desired + desired == current + desired
    {
    }

    ghost predicate PatchCarries(sa: Sa, uid: Uid, p: Provenance, m: Managed, labels: Labels, annotations: Annotations) {
      forall uid': Uid, version: nat ::
        Carries(Sa(uid', version, sa.labels + labels, sa.annotations + annotations), uid, p, m)
    }

    lemma CreatedCarries(sa: Sa, uid: Uid, p: Provenance, m: Managed)
      requires sa.labels == DesiredLabels(uid, p == Created) && sa.annotations == DesiredAnnotations(m.clientId, m.tenantId)
      ensures Carries(sa, uid, p, m)
    {
    }

    method CreateMissingAccount(w: Wi, m: Managed, p: Provenance) returns (outcome: EnsureOutcome, saUid: Uid)
      requires Stands(w, NSaCreate(p, m))
      modifies cluster
      ensures Since(old(cluster.Sign())) && Left(w, outcome, NStatus(ReadyPatch(p, saUid, cluster.uamiId)))
      ensures outcome.Ensured? ==>
                cluster.sa.Some? && cluster.sa.value.uid == saUid && Carries(cluster.sa.value, w.id.uid, p, m)
    {
      hide Run;
      hide Init;
      hide NormalTraced;
      hide Carries;
      var result;
      ghost var c, st;
      var labels, annotations := DesiredLabels(w.id.uid, p == Created), DesiredAnnotations(m.clientId, m.tenantId);
      hide DesiredLabels;
      hide DesiredAnnotations;
      result, saUid, c, st := client.CreateServiceAccount(w, NSaCreate(p, m), labels, annotations);
      outcome := if result == Died then Stopped else if result == Refused then Rejected(OtherError("ServiceAccountEnsureFailed")) else Ensured;
      if result == Answered {
        CreatedCarries(cluster.sa.value, w.id.uid, p, m);
      }
    }

    method PatchFoundAccount(w: Wi, m: Managed, p: Provenance, labels: Labels, annotations: Annotations)
      returns (outcome: EnsureOutcome, saUid: Uid, ghost written: Option<Sa>)
      requires Stands(w, NSaPatch(p, labels, annotations))
      modifies cluster
      ensures Since(old(cluster.Sign())) && Left(w, outcome, NStatus(ReadyPatch(p, saUid, cluster.uamiId)))
      ensures outcome.Ensured? ==>
                cluster.sa.Some? && cluster.sa.value.uid == saUid && written.Some? &&
                (PatchCarries(written.value, w.id.uid, p, m, labels, annotations) ==> Carries(cluster.sa.value, w.id.uid, p, m))
      ensures cluster.trace.Quiet? ==> written == old(cluster.sa)
    {
      hide Run;
      hide Init;
      hide NormalTraced;
      hide Carries;
      var result;
      ghost var c, st;
      result, saUid, c, st := client.PatchServiceAccount(w, NSaPatch(p, labels, annotations));
      outcome := if result == Died then Stopped else if result == Refused then Rejected(OtherError("ServiceAccountEnsureFailed")) else Ensured;
      written := st.sa;
      if result == Answered {
        assert cluster.sa.value == Sa(saUid, cluster.sa.value.version, st.sa.value.labels + labels, st.sa.value.annotations + annotations);
      }
    }

    // -------------------------------------------------------------- status

    /** setWorkloadIdentityReady, -NotReady or -RecoveryRequired: one versioned patch. */
    method SetStatus(w: Wi, patch: WiPatch)
      requires Stands(w, NStatus(patch))
      modifies cluster
      ensures Since(old(cluster.Sign())) && (Crashed() || Published(w, patch)) && Reported(w)
    {
      hide Run;
      hide Init;
      hide NormalTraced;
      hide NormalWrite;
      var landed;
      ghost var st;
      landed, st := client.PatchStatus(w, patch);
    }

    /** handleWorkloadIdentityEnsureError. */
    method HandleEnsureError(w: Wi, error: EnsureError)
      requires Stands(w, NStatus(PatchFor(error)))
      modifies cluster
      ensures Since(old(cluster.Sign())) && (Crashed() || Published(w, PatchFor(error))) && Reported(w)
    {
      hide Run;
      hide NormalTraced;
      hide Published;
      hide Reported;
      match error
      case RecoveryRequiredError(previous) => SetStatus(w, RequiredPatch(previous));
      case RecoveryInProgressError => SetStatus(w, NotReadyPatch(ReasonRecoveryInProgress));
      case OtherError(reason) => SetStatus(w, NotReadyPatch(ReasonOther(reason)));
    }

    // -------------------------------------------------------------- Reconcile

    /** The branch of Reconcile for an account that belongs to an earlier instance. */
    method DetectRecovery(w: Wi, owner: Uid)
      requires Stands(w, NDetect(owner))
      modifies cluster
      ensures Since(old(cluster.Sign())) && Reported(w)
    {
      hide Run;
      hide Init;
      hide NormalTraced;
      hide Classify;
      hide Published;
      var result, found := client.GetUami(w, NDetect(owner));
      if result == Died {
        return;
      }
      if result == Refused || found.None? || !EqualFold(found.value.id, cluster.uamiId) {
        SetStatus(w, NotReadyPatch(ReasonOther("ServiceAccountConflict")));
        return;
      }
      match Classify(w.id, found.value)
      case RecoveryRequired(previous) =>
        if previous == owner {
          SetStatus(w, RequiredPatch(previous));
        } else {
          SetStatus(w, NotReadyPatch(ReasonOther("ServiceAccountConflict")));
        }
      case RecoveryInProgress =>
        SetStatus(w, NotReadyPatch(ReasonRecoveryInProgress));
      case Owned =>
        SetStatus(w, NotReadyPatch(ReasonOther("ServiceAccountConflict")));
      case OwnershipConflict =>
        SetStatus(w, NotReadyPatch(ReasonOther("ServiceAccountConflict")));
    }

    /** Reconcile from the issuer on. It always reports, unless the issuer is not ready and the target is
        waiting for a recovery. */
    method ReconcileLive(w: Wi)
      requires Stands(w, NIssuer) && cluster.answer.configured == configured
      modifies cluster
      ensures Since(old(cluster.Sign())) && Ended()
      ensures Reported(w) || (RecoveryStateActive(w) && cluster.answer.issuer.None?)
    {
      hide Run;
      hide Init;
      hide NormalTraced;
      hide Inspect;
      hide Published;
      var ok, url := client.GetIssuer(w);
      if !ok {
        return;
      }
      if url.None? {
        if !RecoveryStateActive(w) {
          SetStatus(w, NotReadyPatch(ReasonOther("OIDCIssuerNotReady")));
        }
        return;
      }
      if !configured {
        SetStatus(w, NotReadyPatch(ReasonOther("ManagerNotConfigured")));
        return;
      }
      InspectAccount(w, url.value);
    }

    /** Reconcile once the issuer is known. */
    method InspectAccount(w: Wi, url: string)
      requires Stands(w, NInspect(url))
      modifies cluster
      ensures Since(old(cluster.Sign())) && Reported(w)
    {
      hide Run;
      hide Init;
      hide NormalTraced;
      hide Inspect;
      hide Published;
      var result, found := client.GetServiceAccount(w, NInspect(url));
      if result == Died {
        return;
      }
      if result == Refused {
        SetStatus(w, NotReadyPatch(ReasonOther("ServiceAccountReadFailed")));
        return;
      }
      match Inspect(w, found)
      case SaConflict => SetStatus(w, NotReadyPatch(ReasonOther("ServiceAccountConflict")));
      case ForeignOwner(owner) => DetectRecovery(w, owner);
      case Inspected(state) => EnsureAll(w, state, url);
    }

    /** Azure, then the ServiceAccount, then Ready. */
    method EnsureAll(w: Wi, state: SaState, url: string)
      requires Stands(w, NEnsure(state, url))
      modifies cluster
      ensures Since(old(cluster.Sign())) && Reported(w)
    {
      hide Run;
      hide Init;
      hide NormalTraced;
      hide OwnsIdentity;
      hide HandsOn;
      hide Published;
      hide Carries;
      var outcome, m := Ensure(w, state, url);
      if outcome == Ensured {
        var provenance, saUid;
        ghost var read, written;
        outcome, provenance, saUid, read, written := EnsureServiceAccount(w, state, m);
        if outcome == Ensured {
          SetStatus(w, ReadyPatch(provenance, saUid, cluster.uamiId));
          return;
        }
      }
      if outcome.Rejected? {
        HandleEnsureError(w, outcome.error);
      }
    }

    /** deleteServiceAccountIfOwned: the UAMI is gone by then, and an account that stays is not one the
        operator may delete. */
    method DeleteServiceAccountIfOwned(w: Wi) returns (ok: bool)
      requires Stands(w, NDeleteSaGet)
      modifies cluster
      ensures Since(old(cluster.Sign())) && (if ok then Stands(w, NRemoveFinalizer) && Cleared(cluster.Stores(), w) else Ended())
    {
      hide Run;
      hide Init;
      hide NormalTraced;
      hide Persisted;
      hide MadeFor;
      hide Classify;
      AtIsSafe(w, NDeleteSaGet);
      var result, found := client.GetServiceAccount(w, NDeleteSaGet);
      ok := result == Answered;
      if !ok {
        return;
      }
      GoneByThen(w, NDeleteSaGet);
      if found.None? {
        return;
      }
      DeletableIs(w, found.value);
      var recorded := Persisted(w);
      if recorded.Some? && recorded != Some(Created) {
        return;
      }
      if recorded.None? && (Label(found.value, CreatedByLabel) != TRUE_VALUE || Label(found.value, OwnerLabel) != w.id.uid) {
        return;
      }
      ghost var st;
      ok, st := client.DeleteServiceAccount(w);
      if ok {
        GoneByThen(w, NDeleteSa);
      }
    }

    /** At the reads and writes of the account's deletion there is no UAMI. */
    lemma GoneByThen(w: Wi, at: NAt)
      requires client.cluster == cluster && client.Valid() && (at.NDeleteSaGet? || at.NDeleteSa?)
      requires cluster.log != [] && cluster.log[|cluster.log| - 1].NormalCall?
      requires Run(cluster.start, cluster.log[..|cluster.log| - 1]).normal == NBusy(w, at)
      ensures cluster.uami.None?
    {
      var log := cluster.log[..|cluster.log| - 1];
      ReachableIsSafe(cluster.start, log);
      RunOne(cluster.start, log, cluster.log[|log|]);
      assert log + [cluster.log[|log|]] == cluster.log;
      GoneStays(Run(cluster.start, log), cluster.log[|log|].c);
      hide Run;
      hide Init;
      hide NormalTraced;
      hide Inv;
    }

    lemma GoneStays(s: State, c: Choice)
      requires Inv(s) && s.normal.NBusy? && (s.normal.at.NDeleteSaGet? || s.normal.at.NDeleteSa?)
      ensures Apply(s, NormalCall(c)).st.uami.None?
    {
      hide Global;
      hide WorkerOk;
      hide NormalRead;
      hide Pinned;
      assert NormalAt(s.st, s.normal.w, s.normal.at);
    }

    /** Delete: remove the UAMI only when it is the caller's own, outside any recovery. `preserved` is
        the recovery-required answer. */
    method DeleteAzure(w: Wi) returns (ok: bool, preserved: bool)
      requires Stands(w, NDeleteGet) && cluster.answer.configured
      modifies cluster
      ensures Since(old(cluster.Sign()))
      ensures if ok then Stands(w, if preserved then NRemoveFinalizer else NDeleteSaGet) else Ended()
      ensures ok ==> if preserved then cluster.uami.Some? && Classify(w.id, cluster.uami.value).RecoveryRequired? else cluster.uami.None?
    {
      hide Run;
      hide Init;
      hide NormalTraced;
      hide Classify;
      preserved := false;
      var result, found := client.GetUami(w, NDeleteGet);
      if result != Answered {
        return false, false;
      }
      if found.None? {
        return true, false;
      }
      match Classify(w.id, found.value)
      case Owned =>
        ghost var st;
        ok, st := client.DeleteIdentity(w);
      case RecoveryRequired(_) => return true, true;
      case RecoveryInProgress => return false, false;
      case OwnershipConflict => return false, false;
    }

    /** reconcileWorkloadIdentityDelete. The object goes away only after, at some point of the reconcile,
        nothing of its own was left or its UAMI was kept for a recovery. */
    method ReconcileDelete(w: Wi) returns (gone: bool, ghost k: nat)
      requires w.deleting && client.cluster == cluster && client.GoesOn(NormalEnter(w)) && cluster.answer.configured == configured
      modifies cluster
      ensures Since(old(cluster.Sign())) && Ended()
      ensures gone ==> cluster.wi.None? && |old(cluster.log)| <= k && ClearedAt(cluster.start, cluster.log, w, k)
    {
      hide Run;
      hide Init;
      hide NormalTraced;
      hide LockedWi;
      hide Cleared;
      hide ClearedAt;
      gone, k := false, |cluster.log|;
      if !w.finalizer || LockedWi(w) {
        return;
      }
      var ok := ClearExternals(w);
      if !ok {
        return;
      }
      k := |cluster.log|;
      ghost var log := cluster.log;
      ClearedNow(cluster.start, log, cluster.Now(), w);
      gone := client.RemoveFinalizer(w);
      ClearedStays(cluster.start, log, cluster.log, w, k);
    }

    /** What a deletion does to Azure and the ServiceAccount. */
    method ClearExternals(w: Wi) returns (ok: bool)
      requires Stands(w, if w.deletePolicy then NDeleteGet else NRemoveFinalizer) && cluster.answer.configured == configured
      modifies cluster
      ensures Since(old(cluster.Sign())) && (if ok then Stands(w, NRemoveFinalizer) && Cleared(cluster.Stores(), w) else Ended())
    {
      hide Run;
      hide Init;
      hide NormalTraced;
      hide Classify;
      hide MadeFor;
      ok := true;
      if w.deletePolicy {
        if !configured {
          client.RejectUnconfigured(w);
          return false;
        }
        var preserved;
        ok, preserved := DeleteAzure(w);
        if ok && !preserved {
          ok := DeleteServiceAccountIfOwned(w);
        }
      }
    }

    /** One reconcile of the WorkloadIdentity. If nobody interfered and no call failed, the run grew by the
        reconcile's own calls alone and the stores are what they compute: a released owner is Ready,
        and a deleted identity is gone with exactly what was its own. */
    method Reconcile()
      requires client.cluster == cluster && cluster.Reached() && cluster.normal.NIdle?
      modifies cluster
      ensures old(cluster.log) <= cluster.log && Ended() && (cluster.trace.Quiet? ==> cluster.answer.configured == configured)
      ensures cluster.trace.Quiet? && old(cluster.wi).Some? ==>
                Undisturbed(old(cluster.Now()), old(cluster.log), cluster.Now(), cluster.log, cluster.answer) &&
                NormalServed(old(cluster.Stores()), cluster.answer, cluster.Stores())
    {
      hide Run;
      hide Init;
      hide NormalTraced;
      hide Undisturbed;
      hide NormalServed;
      ghost var before, log := cluster.Now(), cluster.log;
      client.Watch(configured);
      ReconcileCalls();
      if cluster.trace.Quiet? && before.st.wi.Some? {
        UndisturbedServes(before, log, cluster.Now(), cluster.log, cluster.answer);
      }
    }

    /** The run grew by NormalBegin and NormalCall actions alone, and the final stores are those of the
        reconcile the protocol computes. */
    ghost predicate Undisturbed(before: State, log: seq<Action>, after: State, later: seq<Action>, c: Choice)
      requires before.st.wi.Some?
    {
      after.normal.NIdle? && !c.fails &&
      NormalOnward(c, before.(normal := NormalEnter(before.st.wi.value)), log + [NormalBegin], after, later)
    }

    lemma UndisturbedServes(before: State, log: seq<Action>, after: State, later: seq<Action>, c: Choice)
      requires before.st.wi.Some? && Undisturbed(before, log, after, later, c)
      ensures NormalServed(before.st, c, after.st)
    {
      hide NormalCalls;
      hide NormalEnter;
      hide NormalServed;
      ReconcileServesNormal(before.st, c, |later| - |log| - 1, after.st);
    }

    /** The calls of Reconcile. */
    method ReconcileCalls()
      requires Ended() && cluster.trace == Quiet(cluster.Now(), |cluster.log|) && cluster.answer.configured == configured
      modifies cluster
      ensures old(cluster.log) <= cluster.log && Ended() && (cluster.trace.Quiet? ==> cluster.answer.configured == configured)
      ensures cluster.trace.Quiet? && old(cluster.wi).Some? ==>
                Undisturbed(old(cluster.Now()), old(cluster.log), cluster.Now(), cluster.log, cluster.answer)
    {
      hide Run;
      hide Init;
      hide NormalTraced;
      hide NormalEnter;
      hide Undisturbed;
      ghost var before, log := cluster.Now(), cluster.log;
      var found := client.GetWorkloadIdentity();
      if found.Some? {
        ReconcileFound(found.value);
      }
      if cluster.trace.Quiet? && before.st.wi.Some? {
        QuietReconcile(before, log);
      }
    }

    /** A quiet trace from the first read to rest is an undisturbed reconcile. */
    lemma QuietReconcile(before: State, log: seq<Action>)
      requires Ended() && cluster.trace.Quiet? && before.st.wi.Some?
      requires cluster.trace == Quiet(before.(normal := NormalEnter(before.st.wi.value)), |log| + 1)
      requires log + [NormalBegin] <= cluster.log
      ensures Undisturbed(before, log, cluster.Now(), cluster.log, cluster.answer)
    {
      hide Run;
      hide Init;
      hide NormalEnter;
      hide NormalCalls;
    }

    /** Reconcile on the copy that was read. */
    method ReconcileFound(read: Wi)
      requires client.cluster == cluster && client.GoesOn(NormalEnter(read)) && cluster.answer.configured == configured
      modifies cluster
      ensures Since(old(cluster.Sign())) && Ended()
    {
      hide Run;
      hide Init;
      hide NormalTraced;
      hide LockedWi;
      var w := read;
      if w.deleting {
        ghost var k;
        var gone;
        gone, k := ReconcileDelete(w);
        return;
      }
      if !w.finalizer {
        var ok, updated := client.AddFinalizer(w);
        if !ok {
          return;
        }
        w := updated;
      }
      if LockedWi(w) {
        return;
      }
      ReconcileLive(w);
    }
  }
}
