/** Theorems about whole runs: what holds in every reachable state and never reverts. */
module Runs {
  import opened OwnershipTags
  import opened Azure
  import opened Resources
  import opened Target
  import opened ServiceAccounts
  import opened Protocol
  import opened Invariant
  import opened Safety
  import opened FenceTheorems
  import opened LockTheorems
  import opened Passes

  lemma {:induction false} RunAppend(s: State, a: seq<Action>, b: seq<Action>)
    ensures Run(s, a + b) == Run(Run(s, a), b)
    decreases |b|
  {
    hide Apply;
    if b == [] {
      assert a + b == a;
    } else {
      var n := |b| - 1;
      assert (a + b)[..|a + b| - 1] == a + b[..n];
      RunAppend(s, a, b[..n]);
    }
  }

  /** The invariant together with what a verified commit keeps. */
  ghost predicate Kept(s: State) { Inv(s) && CommitKept(s.st) }

  lemma CommitSurvives(s: State, a: Action, u: Uid)
    requires Kept(s) && u in s.st.recs && s.st.recs[u].commitVerified && s.st.recs[u].target in s.st.local
    requires u in Apply(s, a).st.recs
    ensures var st' := Apply(s, a).st;
            (st'.uami.Some? ==> Owner(st'.uami.value) != st'.recs[u].source) &&
            (!IsComplete(st'.recs[u]) ==> LockHeld(st', st'.recs[u]))
  {
    var st, st', r := s.st, Apply(s, a).st, s.st.recs[u];
    assert RecoveryOk(r) && SourceHeld(st, r) && r.uid == u;
    StatusIsForwardOnly(s, a, u);
    if !IsComplete(r) {
      StartedLockPersists(s, a, u);
    }
    if st'.uami.Some? && st.uami.Some? {
      if OwnerOf(st') != OwnerOf(st) {
        OwnershipChain(s, a);
      }
    } else if st'.uami.Some? {
      if MovesMarkers(s, a) {
        MarkerMoves(st, s.worker.u, s.worker.deletion, s.worker.at);
      }
      MarkersOtherwise(s, a);
      CreatedOwner(st.wi.value.id);
    }
    hide Inv;
    hide Apply;
    hide PlanMatches;
    hide MovesMarkers;
  }

  lemma CreatedOwner(t: Ident)
    ensures TagValue(WorkloadIdentityTags(t), OwnerUid) == t.uid
  {
  }

  /** An instance that a recovery already names cannot appear later: UIDs are fresh. */
  lemma TargetsDoNotAppear(s: State, a: Action, u: Uid)
    requires Inv(s) && u in s.st.recs && s.st.recs[u].target in Apply(s, a).st.local
    ensures s.st.recs[u].target in s.st.local
  {
    assert s.st.recs[u].target in s.st.used;
    hide Inv;
    match a
    case WorkerCall(c) => WorkerLeavesLocal(s, c); hide StepWorker;
    case NormalCall(c) => NormalLeavesLocal(s, c); hide StepNormal;
    case _ => hide NormalEnter; hide Enter;
  }

  lemma WorkerLeavesLocal(s: State, c: Choice)
    ensures StepWorker(s, c).st.local == s.st.local
  {
    hide Read;
    hide AfterWrite;
    hide PatchTarget;
    hide Transferred;
    hide Upsert;
    hide PatchConds;
  }

  lemma NormalLeavesLocal(s: State, c: Choice)
    ensures StepNormal(s, c).st.local == s.st.local
  {
    hide NormalRead;
    hide AfterNormalWrite;
    hide ApplyWiPatch;
    hide Upsert;
  }

  lemma VerifiedByWrite(st: Store, w: Uid, at: At, u: Uid)
    requires w in st.recs && u in Write(st, w, at).recs && Write(st, w, at).recs[u].commitVerified
    requires u in st.recs ==> !st.recs[u].commitVerified
    ensures u == w && at == PatchStatus(PatchCommitVerified)
  {
    hide Transferred;
    hide Upsert;
    hide MergeTags;
    hide WithoutFence;
    hide PatchTarget;
    hide PatchConds;
  }

  /** CommitVerified is set by one call only. */
  lemma VerifiedByPatch(s: State, a: Action, u: Uid)
    requires Inv(s) && u in Apply(s, a).st.recs && Apply(s, a).st.recs[u].commitVerified
    requires u in s.st.recs ==> !s.st.recs[u].commitVerified
    ensures a.WorkerCall? && u in s.st.recs && s.worker == Patching(u, s.worker.deletion, PatchCommitVerified)
  {
    match a
    case WorkerCall(c) =>
      hide Inv;
      if s.worker.Busy? && s.worker.u in s.st.recs {
        VerifiedByWrite(s.st, s.worker.u, s.worker.at, u);
      }
      hide Write;
      hide Read;
      hide AfterWrite;
    case NormalCall(c) => NormalLeavesRecords(s, c); hide Inv; hide StepNormal;
    case _ => hide Inv; hide NormalEnter; hide Enter;
  }

  lemma CommitArrives(s: State, a: Action, u: Uid)
    requires Inv(s) && u in Apply(s, a).st.recs && Apply(s, a).st.recs[u].commitVerified
    requires Apply(s, a).st.recs[u].target in Apply(s, a).st.local
    requires u in s.st.recs ==> !s.st.recs[u].commitVerified
    ensures var st' := Apply(s, a).st;
            st'.uami.Some? && Owner(st'.uami.value) != st'.recs[u].source && LockHeld(st', st'.recs[u])
  {
    VerifiedByPatch(s, a, u);
    assert RecoveryOk(s.st.recs[u]);
    assert PatchAt(s.st, s.st.recs[u], PatchCommitVerified);
    hide Global;
    hide NormalOk;
    hide PatchConds;
    hide Owner;
    hide Fence;
    hide LockedWi;
  }

  lemma ActionKeepsCommits(s: State, a: Action)
    requires Kept(s)
    ensures Kept(Apply(s, a))
  {
    ActionKeeps(s, a);
    var st' := Apply(s, a).st;
    hide Inv;
    hide Apply;
    forall u | u in st'.recs && st'.recs[u].commitVerified && st'.recs[u].target in st'.local
      ensures (st'.uami.Some? ==> Owner(st'.uami.value) != st'.recs[u].source) && (!IsComplete(st'.recs[u]) ==> LockHeld(st', st'.recs[u]))
    {
      if u in s.st.recs && s.st.recs[u].commitVerified {
        StatusIsForwardOnly(s, a, u);
        TargetsDoNotAppear(s, a, u);
        CommitSurvives(s, a, u);
      } else {
        CommitArrives(s, a, u);
      }
    }
  }

  lemma {:induction false} RunKeeps(s: State, actions: seq<Action>)
    requires Kept(s)
    ensures Kept(Run(s, actions))
    decreases |actions|
  {
    hide Kept;
    hide Apply;
    if actions != [] {
      var n := |actions| - 1;
      RunKeeps(s, actions[..n]);
      ActionKeepsCommits(Run(s, actions[..n]), actions[n]);
    }
  }

  lemma ReachableIsKept(s0: State, run: seq<Action>)
    requires Init(s0)
    ensures Kept(Run(s0, run))
  {
    InitEstablishes(s0);
    RunKeeps(s0, run);
  }
}
