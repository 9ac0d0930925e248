/** The identity a ServiceAccount is told to use is that of the UAMI in the store, over whole runs. */
module IdentityTheorems {
  import opened OwnershipTags
  import opened Azure
  import opened Resources
  import opened Target
  import opened ServiceAccounts
  import opened Protocol
  import opened Invariant
  import opened Safety

  /** m is the client and tenant of the UAMI that is there. */
  predicate Reports(st: Store, m: Managed) {
    st.uami.Some? && m.clientId == st.uami.value.clientId && m.tenantId == st.uami.value.tenantId
  }

  /** What the normal reconciler carries from the ownership check to the ServiceAccount. */
  predicate Carried(st: Store, n: Normal) {
    n.NBusy? ==>
      match n.at
      case NFicGet(_, _, m) => Reports(st, m)
      case NFicPut(_, _, m) => Reports(st, m)
      case NSaGet(_, m) => Reports(st, m)
      case NSaCreate(_, m) => Reports(st, m)
      case NSaPatch(_, _, _) => st.uami.Some?
      case NStatus(patch) => patch.ReadyPatch? ==> st.uami.Some? && patch.recorded == st.uamiId
      case _ => true
  }

  /** The same UAMI up to its tags. */
  predicate SameIdentity(st: Store, st': Store) {
    st'.uamiId == st.uamiId &&
    (st.uami.Some? ==> st'.uami.Some? && st'.uami.value == st.uami.value.(tags := st'.uami.value.tags))
  }

  lemma WorkerKeepsIdentity(s: State, c: Choice)
    ensures SameIdentity(s.st, StepWorker(s, c).st) && StepWorker(s, c).normal == s.normal
  {
    hide Read;
    hide AfterWrite;
    hide PatchTarget;
    hide Transferred;
    hide Upsert;
    hide PatchConds;
    hide MergeTags;
    hide WithoutFence;
  }

  lemma NormalReadCarries(st: Store, w: Wi, at: NAt, c: Choice)
    requires Carried(st, NBusy(w, at)) && !IsNormalWrite(at)
    ensures Carried(st, NormalRead(st, w, at, c))
  {
    hide FindFic;
    hide Inspect;
    hide Classify;
    hide DecideEnsure;
    hide Subject;
  }

  lemma NormalWriteCarries(st: Store, w: Wi, at: NAt, c: Choice)
    requires NormalOk(st, NBusy(w, at)) && Carried(st, NBusy(w, at)) && IsNormalWrite(at)
    ensures Carried(NormalWrite(st, w, at, c), AfterNormalWrite(st, w, at, c))
  {
    hide Pinned;
    hide OwnedHere;
    hide KeepsState;
    hide KeepsProvenance;
    hide Upsert;
    hide LockedWi;
    hide WorkloadIdentityTags;
    hide ApplyWiPatch;
  }

  lemma NormalCarries(s: State, c: Choice)
    requires Inv(s) && Carried(s.st, s.normal)
    ensures Carried(StepNormal(s, c).st, StepNormal(s, c).normal)
  {
    if s.normal.NBusy? {
      if IsNormalWrite(s.normal.at) {
        NormalWriteCarries(s.st, s.normal.w, s.normal.at, c);
      } else {
        NormalReadCarries(s.st, s.normal.w, s.normal.at, c);
      }
    }
    hide Carried;
    hide Global;
    hide WorkerOk;
    hide NormalOk;
    hide NormalRead;
    hide NormalWrite;
    hide AfterNormalWrite;
  }

  lemma OthersKeepIdentity(s: State, a: Action)
    requires !a.WorkerCall? && !a.NormalCall?
    ensures SameIdentity(s.st, Apply(s, a).st) && (Apply(s, a).normal == s.normal || Carried(Apply(s, a).st, Apply(s, a).normal))
  {
    hide Enter;
    hide EditedTags;
    hide LockedWi;
  }

  lemma ActionCarries(s: State, a: Action)
    requires Inv(s) && Carried(s.st, s.normal)
    ensures Carried(Apply(s, a).st, Apply(s, a).normal)
  {
    hide Inv;
    match a
    case WorkerCall(c) => WorkerKeepsIdentity(s, c); hide StepWorker;
    case NormalCall(c) => NormalCarries(s, c); hide StepNormal;
    case _ => OthersKeepIdentity(s, a); hide Apply;
  }

  /** In every run, whatever anybody does in between, the identity carried to the ServiceAccount is that of
      the UAMI in the store, found or created. */
  lemma {:induction false} ReachableCarries(s0: State, run: seq<Action>)
    requires Init(s0)
    ensures Carried(Run(s0, run).st, Run(s0, run).normal)
    decreases |run|
  {
    hide Apply;
    hide Carried;
    hide Inv;
    if run == [] {
      assert s0.normal.NIdle?;
      CarriedAtRest(s0.st);
    } else {
      var n := |run| - 1;
      ReachableCarries(s0, run[..n]);
      ReachableIsSafe(s0, run[..n]);
      ActionCarries(Run(s0, run[..n]), run[n]);
    }
    hide Init;
  }

  lemma CarriedAtRest(st: Store)
    ensures Carried(st, NIdle)
  {
  }

  /** The provenance of an account that is about to be created, patched or reported as it is. */
  function Deciding(n: Normal): Option<Provenance> {
    if !n.NBusy? then None
    else
      match n.at
      case NSaCreate(p, _) => Some(p)
      case NSaPatch(p, _, _) => Some(p)
      case NStatus(patch) => if patch.ReadyPatch? then Some(patch.provenance) else None
      case _ => None
  }

  /** The account after that call. */
  function AccountAfter(st: Store, n: Normal, uid: Uid): Option<Sa> {
    if !n.NBusy? then st.sa
    else
      match n.at
      case NSaCreate(p, m) => CreateSa(st, n.w, p, m, uid).sa
      case NSaPatch(_, labels, annotations) => PatchSa(st, labels, annotations).sa
      case _ => st.sa
  }

  /** In every run, when the normal reconciler has read the account and goes on with it, the account as it
      is, as it will be created or as it will be patched carries the client and tenant of the UAMI in
      the store, the owner and the provenance that is reported. */
  lemma AccountIsToldTheIdentity(s0: State, run: seq<Action>, c: Choice, uid: Uid)
    requires Init(s0)
    requires var s := Run(s0, run); s.normal.NBusy? && s.normal.at.NSaGet? && Deciding(Apply(s, NormalCall(c)).normal).Some?
    ensures var s, s' := Run(s0, run), Apply(Run(s0, run), NormalCall(c));
            var sa := AccountAfter(s'.st, s'.normal, uid);
            s'.st == s.st && s.st.uami.Some? && sa.Some? &&
            Equipped(sa.value, s.normal.w.id.uid, Deciding(s'.normal).value, s.st.uami.value.clientId, s.st.uami.value.tenantId)
  {
    ReachableCarries(s0, run);
    hide Run;
    hide Init;
    var s := Run(s0, run);
    var NBusy(w, at) := s.normal;
    DecisionEquips(w, at.state, at.m.clientId, at.m.tenantId, s.st.sa);
    hide DecideEnsure;
    hide DesiredLabels;
    hide DesiredAnnotations;
  }
}
