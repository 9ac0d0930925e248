/** Deleting a started recovery finishes it forward before it goes away. */
module Deletion {
  import opened OwnershipTags
  import opened Azure
  import opened Resources
  import opened Target
  import opened Protocol
  import opened Invariant
  import opened WorkerWrites
  import opened Convergence
  import opened Passes
  import opened Runs
  import opened ConvergenceTheorems
  import opened Stuck

  /** A started recovery under deletion, its target locked, over good resources. */
  ghost predicate Finishing(st: Store, u: Uid, stage: Stage) {
    Going(st, u, stage) && st.recs[u].deleting && st.recs[u].finalizer &&
    (st.recs[u].commitVerified ==> stage == CommittedFenced || stage == Complete)
  }

  lemma DeletingAdvances(st: Store, u: Uid, c: Choice, stage: Stage) returns (st': Store)
    requires Finishing(st, u, stage) && !st.recs[u].commitVerified && c.configured
    ensures Reconciled(st, u, c) == Position(st', Idle) && Finishing(st', u, Committed(Marked(stage)))
    ensures st'.recs[u].commitVerified && Req(st'.recs[u]) == Req(st.recs[u]) && st'.recs[u].target == st.recs[u].target
  {
    hide Calls;
    hide Going;
    StageIs(st, u, stage);
    LockedTargetIsValid(st, u);
    GoingStatus(st, u, stage);
    hide Validate;
    ReadCall(st, u, true, ReadTarget, c, CALLS);
    var st1, left := AdvanceSegment(st, u, true, c, stage, CALLS - 1);
    StageIs(st1, u, Committed(Marked(stage)));
    WriteCall(st1, u, true, PatchStatus(PatchCommitVerified), c, left);
    var r' := ApplyPatch(st.recs[u], PatchCommitVerified);
    st' := WithRecord(st1, r');
    IdleStays(st', c, left - 1);
    CommittedStatus(st.recs[u]);
    GoingOn(st1, u, r', Committed(Marked(stage)));
  }

  lemma GoingStatus(st: Store, u: Uid, stage: Stage)
    requires Going(st, u, stage)
    ensures st.recs[u].started && !IsComplete(st.recs[u]) && !IsFailed(st.recs[u])
  {
    hide Externals;
    hide LockHeld;
  }

  lemma CommittedStatus(r: Recovery)
    requires r.plan.Some?
    ensures var r' := ApplyPatch(r, PatchCommitVerified); Ahead(r, r') && !IsComplete(r') && !IsFailed(r')
  {
  }

  /** Finalize, complete, release and drop the finalizer, all in one reconcile. */
  lemma DeletingFinalizes(st: Store, u: Uid, c: Choice, stage: Stage) returns (st': Store)
    requires Finishing(st, u, stage) && st.recs[u].commitVerified && c.configured
    ensures Reconciled(st, u, c) == Position(st', Idle) && Gone(st, u, st')
  {
    hide Calls;
    hide Going;
    StageIs(st, u, stage);
    LockedTargetIsValid(st, u);
    GoingStatus(st, u, stage);
    hide Validate;
    ReadCall(st, u, true, ReadTarget, c, CALLS);
    var st1, left := FinalizeSegment(st, u, true, c, stage, CALLS - 1);
    StageIs(st1, u, Complete);
    FinalStage(st1, u);
    st' := LastCalls(st1, u, c, left);
  }

  lemma FinalStage(st: Store, u: Uid)
    requires Going(st, u, Complete)
    ensures AtStage(Req(st.recs[u]), st.recs[u].target, st.uami.value, Complete)
  {
    hide LockHeld;
    hide AtStage;
    hide RecoverableUami;
    hide PlanMatches;
    hide FicsFit;
    hide SaFits;
  }

  /** The record of u is gone, its UAMI is its target's, and the target is not locked. */
  ghost predicate Gone(st: Store, u: Uid, st': Store)
    requires u in st.recs
  {
    u !in st'.recs && st'.uami.Some? && AtStage(Req(st.recs[u]), st.recs[u].target, st'.uami.value, Complete) &&
    st'.wi.Some? && !LockedWi(st'.wi.value)
  }

  lemma LastCalls(st: Store, u: Uid, c: Choice, n: nat) returns (st': Store)
    requires TargetPresent(st, u) && LockHeld(st, st.recs[u]) && n >= 3
    requires st.uami.Some? && AtStage(Req(st.recs[u]), st.recs[u].target, st.uami.value, Complete)
    ensures Calls(st, Patching(u, true, PatchComplete), c, n) == Position(st', Idle) && Gone(st, u, st')
  {
    hide Calls;
    hide AtStage;
    hide PatchConds;
    WriteCall(st, u, true, PatchStatus(PatchComplete), c, n);
    var st1 := Write(st, u, PatchStatus(PatchComplete));
    WriteCall(st1, u, true, ReleaseCompleted(true), c, n - 1);
    var st2 := Write(st1, u, ReleaseCompleted(true));
    WriteCall(st2, u, true, RemoveFinalizer, c, n - 2);
    st' := Write(st2, u, RemoveFinalizer);
    IdleStays(st', c, n - 3);
  }

  lemma FinishingNow(s: State, u: Uid)
    requires Kept(s) && u in s.st.recs && s.st.recs[u].started && !IsComplete(s.st.recs[u]) && s.st.recs[u].deleting
    requires LockHeld(s.st, s.st.recs[u]) && s.st.recs[u].target in s.st.local && ResourcesGood(s.st, u)
    ensures StageNow(s.st, u).Some? && Finishing(s.st, u, StageNow(s.st, u).value)
  {
    assert RecoveryOk(s.st.recs[u]) && s.st.recs[u].uid == u;
    hide Externals;
    ImpliedStage(s.st, u);
    hide MarkersOk;
    hide EvidenceOk;
    hide SourceHeld;
    hide WorkerOk;
    hide NormalOk;
    hide CommitKept;
    hide StageNow;
  }

  /** A started recovery that is deleted still takes the identity all the way to its target, in at
      most two reconciles, before its record disappears. */
  lemma DeletionFinishesForward(s: State, u: Uid, c: Choice) returns (reconciles: nat)
    requires Kept(s) && s.worker.Idle? && c.configured
    requires u in s.st.recs && s.st.recs[u].started && !IsComplete(s.st.recs[u]) && s.st.recs[u].deleting
    requires LockHeld(s.st, s.st.recs[u]) && s.st.recs[u].target in s.st.local && ResourcesGood(s.st, u)
    ensures 1 <= reconciles <= 2 && Gone(s.st, u, Run(s, Reconciles(u, c, reconciles)).st)
  {
    FinishingNow(s, u);
    hide Kept;
    hide Finishing;
    hide Run;
    hide RecoveryReconcile;
    hide Calls;
    hide StageNow;
    hide ResourcesGood;
    hide AtStage;
    hide LockedWi;
    var stage := StageNow(s.st, u).value;
    if s.st.recs[u].commitVerified {
      reconciles := 1;
      var st1 := DeletingFinalizes(s.st, u, c, stage);
      ReconcileIsRun(s, u, c);
      OneReconcile(u, c);
    } else {
      reconciles := 2;
      var st1 := DeletingAdvances(s.st, u, c, stage);
      ReconcileIsRun(s, u, c);
      var s1 := Run(s, RecoveryReconcile(u, c));
      FinishingRecord(st1, u, Committed(Marked(stage)));
      var st2 := DeletingFinalizes(st1, u, c, Committed(Marked(stage)));
      ReconcileIsRun(s1, u, c);
      RunAppend(s, RecoveryReconcile(u, c), RecoveryReconcile(u, c));
      OneReconcile(u, c);
    }
  }

  lemma FinishingRecord(st: Store, u: Uid, stage: Stage)
    requires Finishing(st, u, stage)
    ensures u in st.recs
  {
  }

  /** The deletion of a recovery that has not started: the elected one unlocks its target, any other one
      leaves it alone, and the record goes away. */
  lemma CancelledReconcile(st: Store, u: Uid, c: Choice) returns (st': Store)
    requires u in st.recs && st.recs[u].uid == u && st.recs[u].deleting && st.recs[u].finalizer && !st.recs[u].started
    ensures Reconciled(st, u, c) == Position(st', Idle) && CancelledTo(st, u, st')
  {
    hide Calls;
    hide Elected;
    hide PatchTarget;
    ReadCall(st, u, true, ListForCancel, c, CALLS);
    if Elected(st.recs, u) {
      WriteCall(st, u, true, ReleaseCancelled, c, CALLS - 1);
      var st1 := Write(st, u, ReleaseCancelled);
      WriteCall(st1, u, true, RemoveFinalizer, c, CALLS - 2);
      st' := Write(st1, u, RemoveFinalizer);
      IdleStays(st', c, CALLS - 3);
    } else {
      WriteCall(st, u, true, RemoveFinalizer, c, CALLS - 1);
      st' := Write(st, u, RemoveFinalizer);
      IdleStays(st', c, CALLS - 2);
    }
  }

  /** st' is st without the record of u, its target unlocked if u was elected. */
  ghost predicate CancelledTo(st: Store, u: Uid, st': Store)
    requires u in st.recs
  {
    st' == st.(recs := st.recs - {u}, wi := st'.wi, clock := st'.clock) &&
    (if Elected(st.recs, u) then st'.wi == PatchTarget(st.recs[u], st.wi, RELEASE_FROM, ReasonRecoveryCancelled, st.clock)
     else st'.wi == st.wi)
  }

  /** What one undisturbed reconcile of a deleted recovery does: cancel it, take it to its commit, or
      finish it and let it go. */
  ghost predicate DeletionServed(st: Store, u: Uid, c: Choice, st': Store) {
    u in st.recs && st.recs[u].uid == u && st.recs[u].deleting && st.recs[u].finalizer ==>
      (!st.recs[u].started ==> CancelledTo(st, u, st')) &&
      forall stage | Finishing(st, u, stage) && c.configured ::
        if st.recs[u].commitVerified then Gone(st, u, st')
        else Finishing(st', u, Committed(Marked(stage))) && st'.recs[u].commitVerified
  }

  lemma ReconcileServesDeletion(st: Store, u: Uid, c: Choice, k: nat, st': Store)
    requires u in st.recs && Calls(st, Enter(st.recs[u], c.configured), c, k) == Position(st', Idle)
    ensures DeletionServed(st, u, c, st')
  {
    hide Calls;
    hide Enter;
    hide Finishing;
    hide Gone;
    hide CancelledTo;
    var r := st.recs[u];
    if r.uid == u && r.deleting && r.finalizer {
      var w := Enter(r, c.configured);
      if !r.started {
        var st1 := CancelledReconcile(st, u, c);
        RestIsUnique(st, w, c, k, CALLS);
      }
      forall stage | Finishing(st, u, stage) && c.configured
        ensures if r.commitVerified then Gone(st, u, st')
                else Finishing(st', u, Committed(Marked(stage))) && u in st'.recs && st'.recs[u].commitVerified
      {
        if r.commitVerified {
          var st1 := DeletingFinalizes(st, u, c, stage);
        } else {
          var st1 := DeletingAdvances(st, u, c, stage);
          FinishingRecord(st1, u, Committed(Marked(stage)));
        }
        RestIsUnique(st, w, c, k, CALLS);
      }
    }
  }

  lemma OneReconcile(u: Uid, c: Choice)
    ensures Reconciles(u, c, 1) == RecoveryReconcile(u, c)
    ensures Reconciles(u, c, 2) == RecoveryReconcile(u, c) + RecoveryReconcile(u, c)
  {
    hide RecoveryReconcile;
    assert Reconciles(u, c, 1) == RecoveryReconcile(u, c) + [];
  }

  ghost predicate Removable(s: State, u: Uid) {
    exists more: seq<Action> :: u !in Run(s, more).st.recs
  }

  /** Over good resources, a started, unfinished recovery under deletion can go away if and only if
      its target carries the lock. */
  lemma GoesExactlyUnderLock(s0: State, run: seq<Action>, u: Uid, c: Choice)
    requires Init(s0) && c.configured
    requires var s := Run(s0, run);
             u in s.st.recs && s.st.recs[u].started && !IsComplete(s.st.recs[u]) && s.st.recs[u].deleting &&
             s.st.recs[u].target in s.st.local && ResourcesGood(s.st, u)
    ensures var s := Run(s0, run); Removable(s, u) <==> LockHeld(s.st, s.st.recs[u])
  {
    hide Kept;
    hide Inv;
    hide Apply;
    var s := Run(s0, run);
    ReachableIsKept(s0, run);
    if LockHeld(s.st, s.st.recs[u]) {
      hide ResourcesGood;
      hide StepWorker;
      hide StepNormal;
      hide LockHeld;
      hide IsComplete;
      var s1 := Apply(s, WorkerCrash);
      CrashOnlyIdles(s);
      ActionKeepsCommits(s, WorkerCrash);
      var n := DeletionFinishesForward(s1, u, c);
      RunFirst(s, WorkerCrash, Reconciles(u, c, n));
      assert u !in Run(s, [WorkerCrash] + Reconciles(u, c, n)).st.recs;
    } else {
      StrandedNow(s, u);
      forall more: seq<Action>
        ensures u in Run(s, more).st.recs
      {
        hide Run;
        hide Inv;
        StrandedForever(s, u, more);
      }
    }
  }

  lemma CrashOnlyIdles(s: State)
    ensures Apply(s, WorkerCrash) == s.(worker := Idle)
  {
  }

  lemma StrandedNow(s: State, u: Uid)
    requires Kept(s) && u in s.st.recs && s.st.recs[u].started && !IsComplete(s.st.recs[u])
    requires s.st.recs[u].target in s.st.local && !LockHeld(s.st, s.st.recs[u])
    ensures Stranded(s.st, u) && Inv(s)
  {
    hide Inv;
  }
}
