/** After completion, one normal reconcile makes the target Ready again, as the first one makes a new
    identity Ready. */
module Handover {
  import opened OwnershipTags
  import opened Azure
  import opened Resources
  import opened ServiceAccounts
  import opened Protocol

  datatype NormalPosition = NormalPosition(st: Store, normal: Normal)

  /** n calls of the normal reconciler with nobody else acting. */
  ghost function NormalCalls(st: Store, n: Normal, c: Choice, k: nat): NormalPosition
    decreases k
  {
    if k == 0 then NormalPosition(st, n)
    else if n.NIdle? then NormalCalls(st, NIdle, c, k - 1)
    else if IsNormalWrite(n.at) then NormalCalls(NormalWrite(st, n.w, n.at, c), AfterNormalWrite(st, n.w, n.at, c), c, k - 1)
    else NormalCalls(st, NormalRead(st, n.w, n.at, c), c, k - 1)
  }

  lemma {:induction false} NormalIdleStays(st: Store, c: Choice, k: nat)
    ensures NormalCalls(st, NIdle, c, k) == NormalPosition(st, NIdle)
  {
    if k > 0 {
      NormalIdleStays(st, c, k - 1);
    }
  }

  lemma NoMoreNormalCalls(st: Store, n: Normal, c: Choice)
    ensures NormalCalls(st, n, c, 0) == NormalPosition(st, n)
  {
  }

  /** k calls and then m more. */
  lemma {:induction false} NormalCallsCompose(st: Store, n: Normal, c: Choice, k: nat, m: nat)
    ensures var p := NormalCalls(st, n, c, k); NormalCalls(st, n, c, k + m) == NormalCalls(p.st, p.normal, c, m)
    decreases k
  {
    hide NormalRead;
    hide NormalWrite;
    hide AfterNormalWrite;
    if k > 0 {
      if n.NIdle? {
        NormalCallsCompose(st, NIdle, c, k - 1, m);
      } else if IsNormalWrite(n.at) {
        NormalCallsCompose(NormalWrite(st, n.w, n.at, c), AfterNormalWrite(st, n.w, n.at, c), c, k - 1, m);
      } else {
        NormalCallsCompose(st, NormalRead(st, n.w, n.at, c), c, k - 1, m);
      }
    }
  }

  /** A reconcile that has come to rest is the same however many calls it is given. */
  lemma NormalRestIsUnique(st: Store, n: Normal, c: Choice, k: nat, m: nat)
    requires NormalCalls(st, n, c, k).normal.NIdle? && NormalCalls(st, n, c, m).normal.NIdle?
    ensures NormalCalls(st, n, c, k) == NormalCalls(st, n, c, m)
  {
    hide NormalCalls;
    var a, b := NormalCalls(st, n, c, k), NormalCalls(st, n, c, m);
    if k <= m {
      NormalCallsCompose(st, n, c, k, m - k);
      NormalIdleStays(a.st, c, m - k);
    } else {
      NormalCallsCompose(st, n, c, m, k - m);
      NormalIdleStays(b.st, c, k - m);
    }
  }

  lemma NormalReadCall(st: Store, w: Wi, at: NAt, c: Choice, k: nat)
    requires !IsNormalWrite(at) && k > 0
    ensures NormalCalls(st, NBusy(w, at), c, k) == NormalCalls(st, NormalRead(st, w, at, c), c, k - 1)
  {
  }

  lemma NormalWriteCall(st: Store, w: Wi, at: NAt, c: Choice, k: nat)
    requires IsNormalWrite(at) && k > 0
    ensures NormalCalls(st, NBusy(w, at), c, k) == NormalCalls(NormalWrite(st, w, at, c), AfterNormalWrite(st, w, at, c), c, k - 1)
  {
  }

  /** The account, if there is one, is the instance's own, or one that nobody owns and that carries no
      identity yet. */
  predicate Usable(id: Ident, sa: Option<Sa>) {
    sa.Some? ==> OwnershipError(id.uid, sa.value).None? && (OwnedBy(id.uid, sa.value) || Unannotated(sa.value))
  }

  predicate Live(st: Store) {
    st.wi.Some? && !st.wi.value.deleting && !LockedWi(st.wi.value) && st.wi.value.id.uid != "" && Usable(st.wi.value.id, st.sa)
  }

  /** A released target whose UAMI is its own. */
  ghost predicate Handed(st: Store) {
    Live(st) && st.uami.Some? && Classify(st.wi.value.id, st.uami.value) == Owned &&
    |st.fics| == 1 && LocatedAt(st.fics[0], st.wi.value.id.ficName, FicId(st.uamiId, st.wi.value.id.ficName))
  }

  /** An identity without a UAMI that has never recorded one under this resource ID. */
  predicate Fresh(st: Store) {
    Live(st) && st.uami.None? && !(st.wi.value.recorded.Some? && EqualFold(st.wi.value.recorded.value, st.uamiId))
  }

  /** The UAMI the reconcile ends with: the one there, or the one Azure creates. */
  function UamiFor(st: Store, c: Choice): Uami
    requires st.wi.Some?
  {
    if st.uami.Some? then st.uami.value
    else Uami(st.uamiId, c.clientId, c.principalId, c.tenantId, WorkloadIdentityTags(st.wi.value.id))
  }

  /** Nothing fails and the issuer is ready. */
  predicate Calm(c: Choice) { c.configured && c.issuer.Some? && !c.fails }

  /** The one credential trusts the current issuer for the instance's ServiceAccount. */
  predicate Trusts(st: Store, id: Ident, url: string) {
    |st.fics| == 1 && EqualFold(st.fics[0].name, id.ficName) &&
    EqualFold(st.fics[0].id, st.uamiId + "/federatedIdentityCredentials/" + id.ficName) &&
    st.fics[0].tuple == Some(Tuple(url, "system:serviceaccount:" + id.key.ns + ":" + id.saName, ["api://AzureADTokenExchange"]))
  }

  /** Ready=True and recorded; an owned UAMI; exactly one credential, trusting the current issuer; and an
      owned account with the client and tenant of that UAMI. */
  ghost predicate Settled(st: Store, id: Ident, url: string) {
    st.wi.Some? && st.wi.value.id == id && st.wi.value.evidence.None? && st.wi.value.ready.Some? &&
    st.wi.value.ready.value.status == StatusTrue && st.wi.value.ready.value.gen == st.wi.value.gen &&
    st.uami.Some? && Classify(id, st.uami.value) == Owned && st.wi.value.recorded == Some(st.uamiId) &&
    st.wi.value.subject == "system:serviceaccount:" + id.key.ns + ":" + id.saName && Trusts(st, id, url) &&
    st.wi.value.provenance.Some? && st.sa.Some? && st.wi.value.saUid == st.sa.value.uid &&
    Equipped(st.sa.value, id.uid, st.wi.value.provenance.value, st.uami.value.clientId, st.uami.value.tenantId)
  }

  const NORMAL_CALLS: nat := 10

  predicate Agreed(state: SaState, sa: Option<Sa>) { sa.Some? && state.NotEstablished? ==> Unannotated(sa.value) }

  lemma InspectAccepts(st: Store, w: Wi)
    requires Usable(w.id, st.sa)
    ensures Inspect(w, st.sa).Inspected? && Agreed(Inspect(w, st.sa).state, st.sa)
  {
  }

  /** The UAMI created is owned. */
  lemma CreatedIsOwned(t: Ident, u: Uami)
    requires u.tags == WorkloadIdentityTags(t)
    ensures Classify(t, u) == Owned
  {
    assert HasTags(u.tags, WorkloadIdentityTags(t)) && TagValue(WorkloadIdentityTags(t), OwnerUid) == t.uid;
    assert RecoveryUid !in WorkloadIdentityTags(t) && TargetUid !in WorkloadIdentityTags(t);
  }

  /** From the issuer read to the credential read: the UAMI is there, and what is handed on is its own. */
  lemma IdentityHalf(st: Store, w: Wi, c: Choice, k: nat) returns (st': Store, state: SaState, m: Managed, left: nat)
    requires (Handed(st) || Fresh(st)) && Calm(c) && st.wi == Some(w) && k >= 4
    ensures st' == st.(uami := Some(UamiFor(st, c)), fics := if st.uami.Some? then st.fics else []) && left >= k - 4
    ensures Agreed(state, st.sa) && m == Managed(UamiFor(st, c).clientId, UamiFor(st, c).tenantId)
    ensures NormalCalls(st, NBusy(w, NIssuer), c, k) == NormalCalls(st', NBusy(w, NFicGet(state, c.issuer.value, m)), c, left)
  {
    hide NormalCalls;
    hide Classify;
    hide Inspect;
    hide EqualFold;
    hide OwnedBy;
    hide Unannotated;
    hide WorkloadIdentityTags;
    InspectAccepts(st, w);
    var url, u := c.issuer.value, UamiFor(st, c);
    state, m := Inspect(w, st.sa).state, Managed(u.clientId, u.tenantId);
    st' := st.(uami := Some(u), fics := if st.uami.Some? then st.fics else []);
    NormalReadCall(st, w, NIssuer, c, k);
    NormalReadCall(st, w, NInspect(url), c, k - 1);
    NormalReadCall(st, w, NEnsure(state, url), c, k - 2);
    if st.uami.Some? {
      left := k - 3;
    } else {
      left := k - 4;
      NormalWriteCall(st, w, NCreate(state, url), c, k - 3);
    }
  }

  /** From the credential read to the ServiceAccount read. */
  lemma CredentialHalf(st: Store, w: Wi, state: SaState, m: Managed, c: Choice, k: nat) returns (st': Store, left: nat)
    requires Calm(c) && st.uami.Some? && k >= 2
    requires st.fics == [] || (|st.fics| == 1 && LocatedAt(st.fics[0], w.id.ficName, FicId(st.uamiId, w.id.ficName)))
    ensures st' == st.(fics := st'.fics) && left >= k - 2 && ExactFics(st.uamiId, w.id, NormalTuple(w, c.issuer.value), st'.fics)
    ensures NormalCalls(st, NBusy(w, NFicGet(state, c.issuer.value, m)), c, k) == NormalCalls(st', NBusy(w, NSaGet(state, m)), c, left)
  {
    hide NormalCalls;
    hide EqualFold;
    var url := c.issuer.value;
    NormalReadCall(st, w, NFicGet(state, url, m), c, k);
    if st.fics != [] && st.fics[0].tuple == Some(NormalTuple(w, url)) {
      st', left := st, k - 1;
    } else {
      st', left := NormalWrite(st, w, NFicPut(state, url, m), c), k - 2;
      NormalWriteCall(st, w, NFicPut(state, url, m), c, k - 1);
      FoldedTwice(w.id.ficName);
      FoldedTwice(FicId(st.uamiId, w.id.ficName));
    }
  }

  lemma FoldedTwice(s: string)
    ensures EqualFold(s, s)
  {
  }

  /** The account is the target's and carries the client and tenant IDs. */
  predicate AccountDone(st: Store, id: Ident, p: Provenance, m: Managed) {
    st.sa.Some? && Equipped(st.sa.value, id.uid, p, m.clientId, m.tenantId)
  }

  lemma EnsureAccepts(st: Store, w: Wi, state: SaState, m: Managed)
    requires Usable(w.id, st.sa) && Agreed(state, st.sa)
    ensures var d := DecideEnsure(w, state, m.clientId, m.tenantId, st.sa);
            (st.sa.None? ==> d.CreateAccount?) && (st.sa.Some? ==> d.PatchAccount? || d.KeepAccount?)
  {
    hide OwnershipError;
    hide Unannotated;
    hide DesiredLabels;
    hide DesiredAnnotations;
  }

  /** Whichever call the decision leads to, the account is done after it. */
  lemma DecisionDoesIt(st: Store, w: Wi, state: SaState, m: Managed, uid: Uid)
    requires Usable(w.id, st.sa) && Agreed(state, st.sa)
    ensures var d := DecideEnsure(w, state, m.clientId, m.tenantId, st.sa);
            match d
            case CreateAccount(p) => st.sa.None? && AccountDone(CreateSa(st, w, p, m, uid), w.id, p, m)
            case PatchAccount(p, labels, annotations) => st.sa.Some? && AccountDone(PatchSa(st, labels, annotations), w.id, p, m)
            case KeepAccount(p, saUid) => AccountDone(st, w.id, p, m) && saUid == st.sa.value.uid
            case RefuseAccount => false
  {
    EnsureAccepts(st, w, state, m);
    DecisionEquips(w, state, m.clientId, m.tenantId, st.sa);
    hide DecideEnsure;
    hide DesiredLabels;
    hide DesiredAnnotations;
    hide Usable;
    hide Agreed;
  }

  /** The ServiceAccount half ends in the Ready patch. */
  lemma AccountHalf(st: Store, w: Wi, state: SaState, m: Managed, c: Choice, k: nat) returns (st': Store, p: Provenance, left: nat)
    requires !c.fails && Usable(w.id, st.sa) && Agreed(state, st.sa) && k >= 2
    ensures st' == st.(sa := st'.sa, clock := st'.clock) && AccountDone(st', w.id, p, m) && left >= k - 2
    ensures NormalCalls(st, NBusy(w, NSaGet(state, m)), c, k) ==
              NormalCalls(st', NBusy(w, NStatus(ReadyPatch(p, st'.sa.value.uid, st.uamiId))), c, left)
  {
    hide NormalCalls;
    hide Usable;
    hide Agreed;
    hide Equipped;
    hide DesiredLabels;
    hide DesiredAnnotations;
    DecisionDoesIt(st, w, state, m, c.uid);
    var d := DecideEnsure(w, state, m.clientId, m.tenantId, st.sa);
    NormalReadCall(st, w, NSaGet(state, m), c, k);
    hide DecideEnsure;
    p := d.provenance;
    match d
    case CreateAccount(_) =>
      st', left := CreateSa(st, w, p, m, c.uid), k - 2;
      NormalWriteCall(st, w, NSaCreate(p, m), c, k - 1);
    case PatchAccount(_, labels, annotations) =>
      st', left := PatchSa(st, labels, annotations), k - 2;
      NormalWriteCall(st, w, NSaPatch(p, labels, annotations), c, k - 1);
    case KeepAccount(_, _) =>
      st', left := st, k - 1;
  }

  /** The normal reconcile that follows a release, or the first one of a new identity, reaches Ready=True. */
  lemma HandoverReachesReady(st: Store, c: Choice) returns (st': Store)
    requires (Handed(st) || Fresh(st)) && Calm(c)
    ensures NormalCalls(st, NormalEnter(st.wi.value), c, NORMAL_CALLS) == NormalPosition(st', NIdle)
    ensures Settled(st', st.wi.value.id, c.issuer.value) && st'.uami == Some(UamiFor(st, c)) && st'.recs == st.recs
  {
    hide NormalCalls;
    hide Classify;
    hide EqualFold;
    hide Usable;
    hide Agreed;
    hide WorkloadIdentityTags;
    hide Equipped;
    var w, st0, k := st.wi.value, st, NORMAL_CALLS;
    if !w.finalizer {
      NormalWriteCall(st, w, NAddFinalizer, c, k);
      w, k := w.(finalizer := true, version := st.clock), k - 1;
      st0 := st.(wi := Some(w), clock := st.clock + 1);
    }
    if Fresh(st) {
      CreatedIsOwned(w.id, UamiFor(st, c));
    }
    var st1, state, m, k1 := IdentityHalf(st0, w, c, k);
    var st2, k2 := CredentialHalf(st1, w, state, m, c, k1);
    var st3, p, k3 := AccountHalf(st2, w, state, m, c, k2);
    var patch := ReadyPatch(p, st3.sa.value.uid, st2.uamiId);
    NormalWriteCall(st3, w, NStatus(patch), c, k3);
    st' := NormalWrite(st3, w, NStatus(patch), c);
    NormalIdleStays(st', c, k3 - 1);
  }

  // ---------------------------------------------------------------- deletion

  function WithoutAccount(st: Store, w: Wi): Store {
    if st.sa.Some? && MadeFor(w, st.sa.value) then st.(sa := None) else st
  }

  /** The stores after an undisturbed deletion of w: its own UAMI goes with its credentials, and only then
      the account it made; a UAMI left by an earlier instance stays, with the account; a foreign or
      fenced UAMI, or a manager that is not configured, stops everything. */
  function DeletedTo(st: Store, w: Wi, configured: bool): Store {
    if !w.deletePolicy then st.(wi := None)
    else if !configured then st
    else if st.uami.None? then WithoutAccount(st, w).(wi := None)
    else
      match Classify(w.id, st.uami.value)
      case Owned => WithoutAccount(st.(uami := None, fics := []), w).(wi := None)
      case RecoveryRequired(_) => st.(wi := None)
      case RecoveryInProgress => st
      case OwnershipConflict => st
  }

  lemma AccountThenFinalizer(st: Store, w: Wi, c: Choice, k: nat)
    requires st.wi == Some(w) && k >= 3
    ensures NormalCalls(st, NBusy(w, NDeleteSaGet), c, k) == NormalPosition(WithoutAccount(st, w).(wi := None), NIdle)
  {
    hide NormalCalls;
    if st.sa.Some? {
      DeletableIs(w, st.sa.value);
    }
    hide Deletable;
    hide MadeFor;
    NormalReadCall(st, w, NDeleteSaGet, c, k);
    if st.sa.Some? && MadeFor(w, st.sa.value) {
      NormalWriteCall(st, w, NDeleteSa, c, k - 1);
      FinalizerCall(st.(sa := None), w, c, k - 2);
    } else {
      FinalizerCall(st, w, c, k - 1);
    }
  }

  lemma FinalizerCall(st: Store, w: Wi, c: Choice, k: nat)
    requires st.wi == Some(w) && k >= 1
    ensures NormalCalls(st, NBusy(w, NRemoveFinalizer), c, k) == NormalPosition(st.(wi := None), NIdle)
  {
    hide NormalCalls;
    NormalWriteCall(st, w, NRemoveFinalizer, c, k);
    NormalIdleStays(st.(wi := None), c, k - 1);
  }

  /** One undisturbed reconcile of a deleted, unlocked WorkloadIdentity. */
  lemma DeletionIs(st: Store, c: Choice)
    requires st.wi.Some? && st.wi.value.deleting && st.wi.value.finalizer && !LockedWi(st.wi.value) && !c.fails
    ensures NormalCalls(st, NormalEnter(st.wi.value), c, NORMAL_CALLS) == NormalPosition(DeletedTo(st, st.wi.value, c.configured), NIdle)
  {
    hide NormalCalls;
    hide Classify;
    hide WithoutAccount;
    var w, k := st.wi.value, NORMAL_CALLS;
    if !w.deletePolicy {
      FinalizerCall(st, w, c, k);
    } else {
      NormalReadCall(st, w, NDeleteGet, c, k);
      if !c.configured {
        NormalIdleStays(st, c, k - 1);
      } else if st.uami.None? {
        AccountThenFinalizer(st, w, c, k - 1);
      } else {
        match Classify(w.id, st.uami.value)
        case Owned =>
          NormalWriteCall(st, w, NDeleteUami, c, k - 1);
          AccountThenFinalizer(st.(uami := None, fics := []), w, c, k - 2);
        case RecoveryRequired(_) => FinalizerCall(st, w, c, k - 1);
        case RecoveryInProgress => NormalIdleStays(st, c, k - 1);
        case OwnershipConflict => NormalIdleStays(st, c, k - 1);
      }
    }
  }

  /** What one undisturbed normal reconcile does: a released owner and a new identity become Ready, a deleted
      one is removed. */
  ghost predicate NormalServed(st: Store, c: Choice, st': Store) {
    ((Handed(st) || Fresh(st)) && Calm(c) ==>
       Settled(st', st.wi.value.id, c.issuer.value) && st'.uami == Some(UamiFor(st, c)) && st'.recs == st.recs) &&
    (st.wi.Some? && st.wi.value.deleting && st.wi.value.finalizer && !LockedWi(st.wi.value) ==> st' == DeletedTo(st, st.wi.value, c.configured))
  }

  lemma ReconcileServesNormal(st: Store, c: Choice, k: nat, st': Store)
    requires st.wi.Some? && !c.fails && NormalCalls(st, NormalEnter(st.wi.value), c, k) == NormalPosition(st', NIdle)
    ensures NormalServed(st, c, st')
  {
    hide NormalCalls;
    hide NormalEnter;
    hide DeletedTo;
    hide Handed;
    hide Fresh;
    hide Settled;
    hide LockedWi;
    var n := NormalEnter(st.wi.value);
    if (Handed(st) || Fresh(st)) && Calm(c) {
      var st1 := HandoverReachesReady(st, c);
      NormalRestIsUnique(st, n, c, k, NORMAL_CALLS);
    }
    if st.wi.value.deleting && st.wi.value.finalizer && !LockedWi(st.wi.value) {
      DeletionIs(st, c);
      NormalRestIsUnique(st, n, c, k, NORMAL_CALLS);
    }
  }
}
