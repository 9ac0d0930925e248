/** Fence, ownership and commit theorems. Each is proved for one action from an arbitrary state that
    satisfies the invariant, hence (Safety.ReachableIsSafe) for every action of every run. */
module FenceTheorems {
  import opened OwnershipTags
  import opened Azure
  import opened Resources
  import opened Target
  import opened ServiceAccounts
  import opened Protocol
  import opened Invariant
  import opened TagWrites
  import opened WorkerWrites
  import opened Safety

  // ---------------------------------------------------------------- fence exclusion

  predicate Fenced(st: Store) { st.uami.Some? && !Unfenced(st.uami.value) }

  /** The normal reconciler is about to create, repair or delete the UAMI, its credential or its
      ServiceAccount. */
  predicate AboutToMutate(n: Normal) {
    n.NBusy? &&
    (n.at.NCreate? || n.at.NFicPut? || n.at.NSaCreate? || n.at.NSaPatch? || n.at.NDeleteUami? || n.at.NDeleteSa?)
  }

  predicate SameExternals(a: Store, b: Store) { a.uami == b.uami && a.fics == b.fics && a.sa == b.sa }

  /** The actions of the normal reconciler itself, and those of the recovery worker. */
  predicate IsNormalAction(a: Action) { a.NormalBegin? || a.NormalCall? || a.NormalCrash? }
  predicate IsWorkerAction(a: Action) { a.WorkerBegin? || a.WorkerCall? || a.WorkerCrash? }

  lemma NoMutationUnderFence(s: State)
    requires Inv(s) && Fenced(s.st)
    ensures !AboutToMutate(s.normal)
  {
    hide Global;
    hide WorkerOk;
    if AboutToMutate(s.normal) {
      hide LockedWi;
      hide Persisted;
      assert false;
    }
  }

  lemma NormalChangesOnlyAt(s: State, a: Action)
    requires IsNormalAction(a)
    ensures !AboutToMutate(s.normal) ==> SameExternals(s.st, Apply(s, a).st)
  {
  }

  /** While recovery markers are on the UAMI, no action of the normal reconciler changes the UAMI,
      the credentials or the ServiceAccount, and none is even about to. */
  lemma FenceExclusion(s0: State, run: seq<Action>, a: Action)
    requires Init(s0) && IsNormalAction(a) && Fenced(Run(s0, run).st)
    ensures !AboutToMutate(Run(s0, run).normal)
    ensures SameExternals(Run(s0, run).st, Apply(Run(s0, run), a).st)
  {
    ReachableIsSafe(s0, run);
    NoMutationUnderFence(Run(s0, run));
    NormalChangesOnlyAt(Run(s0, run), a);
    hide *;
  }

  // ---------------------------------------------------------------- who moves the markers

  function OwnerOf(st: Store): Uid { if st.uami.Some? then Owner(st.uami.value) else "" }
  function FenceOf(st: Store): Uid { if st.uami.Some? then Fence(st.uami.value) else "" }

  /** The worker's next call is one of the three tag writes of recovery u. */
  predicate MovesMarkers(s: State, a: Action) {
    a.WorkerCall? && s.worker.Busy? && s.worker.u in s.st.recs &&
    (s.worker.at.MarkPut? || s.worker.at.CommitPut? || s.worker.at.FinalizePut?)
  }

  /** Before and after one of those writes, for recovery r. */
  ghost predicate MarkerMove(at: At, r: Recovery, t: Uid, before: Uami, after: Uami) {
    match at
    case MarkPut(_, _) =>
      AtStage(Req(r), t, before, NotStarted) && AtStage(Req(r), t, after, InProgress)
    case CommitPut(_, _) =>
      AtStage(Req(r), t, before, InProgress) && AtStage(Req(r), t, after, CommittedFenced)
    case FinalizePut(_, _) =>
      AtStage(Req(r), t, before, CommittedFenced) && AtStage(Req(r), t, after, Complete) && r.commitVerified
    case _ => false
  }

  /** What is known just before a tag write. */
  lemma BeforeMarkerMove(st: Store, u: Uid, del: bool, at: At)
    requires Global(st) && u in st.recs && WorkerAt(st, u, del, at) && WritesTags(at)
    ensures var r := st.recs[u];
            st.uami.Some? && r.uid == u && WellFormed(Req(r), at.t.uid) && r.target == at.t.uid && r.target in st.local &&
            r.started && r.plan.Some? && LockHeld(st, r) && SameMarkers(at.tags, st.uami.value.tags) &&
            StageOf(st, u, at.t) ==
              Some(if at.MarkPut? then NotStarted else if at.CommitPut? then InProgress else CommittedFenced) &&
            (at.FinalizePut? ==> r.commitVerified)
  {
    hide Global;
    hide WorkerAt;
    hide Load;
    hide CondsOk;
    hide SameMarkers;
    hide LockedWi;
    RecordFacts(st, u);
    TagWriteFacts(st, u, del, at);
  }

  lemma MarkerMoves(st: Store, u: Uid, del: bool, at: At)
    requires Global(st) && u in st.recs && WorkerAt(st, u, del, at) && (at.MarkPut? || at.CommitPut? || at.FinalizePut?)
    ensures var r, st' := st.recs[u], Write(st, u, at);
            st.uami.Some? && st'.uami.Some? && st' == st.(uami := st'.uami) &&
            MarkerMove(at, r, r.target, st.uami.value, st'.uami.value) &&
            r.uid == u && r.started && r.plan.Some? && PlanMatches(st.uami.value, r.plan.value) && LockHeld(st, r) &&
            r.target in st.local
  {
    hide RecoverableUami;
    hide AtStage;
    hide Load;
    hide MergeTags;
    hide WithoutFence;
    hide PlanMatches;
    hide Global;
    hide WorkerAt;
    hide SameMarkers;
    hide LockHeld;
    BeforeMarkerMove(st, u, del, at);
    var r := st.recs[u];
    LoadFacts(st.uamiId, Req(r), at.t, r.plan, st.uami);
    match at
    case MarkPut(t, tags) => AfterMark(st.uamiId, Req(r), t, r.plan, st.uami.value, tags);
    case CommitPut(t, tags) => AfterCommit(st.uamiId, Req(r), t, r.plan, st.uami.value, tags);
    case FinalizePut(t, tags) => AfterFinalize(st.uamiId, Req(r), t, r.plan, st.uami.value, tags);
  }

  /** Every other action leaves the operator's markers alone, creates the UAMI for its current
      WorkloadIdentity, or deletes a UAMI its current WorkloadIdentity owns. */
  lemma MarkersOtherwise(s: State, a: Action)
    requires Inv(s) && !MovesMarkers(s, a)
    ensures var st, st' := s.st, Apply(s, a).st;
            (st.uami.Some? && st'.uami.Some? && SameMarkers(st.uami.value.tags, st'.uami.value.tags)) ||
            (st.uami.None? && st'.uami.None?) ||
            (st.uami.None? && st'.uami.Some? && st.wi.Some? && st'.uami.value.tags == WorkloadIdentityTags(st.wi.value.id)) ||
            (st.uami.Some? && st'.uami.None? && st.wi.Some? && Owner(st.uami.value) == st.wi.value.id.uid && Unfenced(st.uami.value))
  {
    hide Global;
    hide WorkerOk;
    hide LockedWi;
    hide Persisted;
    match a
    case WorkerCall(_) => OtherWorkerCalls(s, a); hide Apply;
    case NormalCall(_) => hide MarkersOk; hide StepWorker;
    case _ => hide StepNormal; hide StepWorker;
  }

  lemma OtherWorkerCalls(s: State, a: Action)
    requires a.WorkerCall? && !MovesMarkers(s, a)
    ensures Apply(s, a).st.uami == s.st.uami
  {
    hide PatchTarget;
    hide Read;
    hide AfterWrite;
  }

  // ---------------------------------------------------------------- the fenced interval

  /** The fence of u goes up only with u's MarkInProgress write and comes down only with u's
      Finalize write, which u makes after its commit checkpoint is durable. */
  lemma FenceInterval(s: State, a: Action, u: Uid)
    requires Inv(s) && u != "" && (FenceOf(s.st) == u) != (FenceOf(Apply(s, a).st) == u)
    ensures a.WorkerCall? && s.worker.Busy? && s.worker.u == u && u in s.st.recs
    ensures FenceOf(s.st) != u ==> s.worker.at.MarkPut? && FenceOf(s.st) == ""
    ensures FenceOf(s.st) == u ==> s.worker.at.FinalizePut? && s.st.recs[u].commitVerified
  {
    if MovesMarkers(s, a) {
      var Busy(v, del, at) := s.worker;
      MarkerMoves(s.st, v, del, at);
      hide Inv;
      hide Write;
      hide PlanMatches;
      hide LockHeld;
    } else {
      MarkersOtherwise(s, a);
      hide Inv;
      hide Apply;
      if FenceOf(s.st) != "" {
        hide MovesMarkers;
      }
    }
  }

  // ---------------------------------------------------------------- ownership is an authorised chain

  /** Every change of the owner of an existing UAMI is the commit of one started recovery: from
      exactly its source to exactly its target, on the UAMI its plan describes, under its fence
      and under its lock. */
  lemma OwnershipChain(s: State, a: Action)
    requires Inv(s) && s.st.uami.Some? && Apply(s, a).st.uami.Some? && OwnerOf(Apply(s, a).st) != OwnerOf(s.st)
    ensures a.WorkerCall? && s.worker.Busy? && s.worker.at.CommitPut? && s.worker.u in s.st.recs
    ensures var r := s.st.recs[s.worker.u];
            r.started && OwnerOf(s.st) == r.source && OwnerOf(Apply(s, a).st) == r.target &&
            FenceOf(s.st) == r.uid && FenceOf(Apply(s, a).st) == r.uid && LockHeld(s.st, r) &&
            r.plan.Some? && PlanMatches(s.st.uami.value, r.plan.value)
  {
    if MovesMarkers(s, a) {
      var Busy(u, del, at) := s.worker;
      MarkerMoves(s.st, u, del, at);
      hide Inv;
      hide Write;
      hide PlanMatches;
      hide LockHeld;
    } else {
      MarkersOtherwise(s, a);
      hide Inv;
      hide Apply;
      hide MovesMarkers;
    }
  }

  /** At most one recovery is ever at stage InProgress or CommittedFenced, and that one is started,
      unfinished and holds the lock. */
  lemma OneFencedRecovery(st: Store, u: Uid, v: Uid, s: Stage, s': Stage)
    requires Global(st) && u in st.recs && v in st.recs && st.uami.Some?
    requires s in {InProgress, CommittedFenced} && s' in {InProgress, CommittedFenced}
    requires RecoveryStage(Req(st.recs[u]), st.recs[u].target, st.uami.value) == Some(s)
    requires RecoveryStage(Req(st.recs[v]), st.recs[v].target, st.uami.value) == Some(s')
    ensures u == v && st.recs[u].started && !IsComplete(st.recs[u]) && LockHeld(st, st.recs[u])
  {
    assert st.recs[u].uid == u && st.recs[v].uid == v && RecoveryOk(st.recs[u]) && RecoveryOk(st.recs[v]);
    assert Fence(st.uami.value) == u && Fence(st.uami.value) == v;
    assert FencedBy(st, u);
    hide Load;
  }

  // ---------------------------------------------------------------- commit before the fence falls

  /** While CommitVerified is not persisted, a UAMI that already belongs to the target of a started
      recovery still carries both of its fence tags. */
  lemma CommitIsDurableFirst(st: Store, u: Uid)
    requires Global(st) && u in st.recs && st.recs[u].started && !st.recs[u].commitVerified &&
             st.recs[u].target in st.local
    requires OwnerOf(st) == st.recs[u].target
    ensures FenceOf(st) == u && FenceTarget(st.uami.value) == st.recs[u].target
  {
    var r := st.recs[u];
    assert SourceHeld(st, r) && RecoveryOk(r) && r.uid == u;
    assert FencedBy(st, u);
    LoadFacts(st.uamiId, Req(r), st.wi.value.id, r.plan, st.uami);
    hide Load;
    hide RecoveryOk;
  }

  /** Stage Complete on the UAMI implies the persisted checkpoints of that recovery. */
  lemma CompleteStageImpliesCheckpoints(st: Store, u: Uid)
    requires Global(st) && u in st.recs && st.uami.Some?
    requires RecoveryStage(Req(st.recs[u]), st.recs[u].target, st.uami.value) == Some(Complete)
    ensures st.recs[u].started && st.recs[u].commitVerified && st.recs[u].plan.Some?
  {
    var r := st.recs[u];
    assert RecoveryOk(r) && r.uid == u;
    StagesAreDisjoint(Req(r), r.target, st.uami.value);
    assert AtStage(Req(r), r.target, st.uami.value, Complete);
  }
}
