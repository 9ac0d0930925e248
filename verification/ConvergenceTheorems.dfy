/** Convergence over runs, and exactly when a started recovery can complete. */
module ConvergenceTheorems {
  import opened OwnershipTags
  import opened Azure
  import opened Resources
  import opened Target
  import opened ServiceAccounts
  import opened Protocol
  import opened Invariant
  import opened Convergence
  import opened Passes
  import opened Handover
  import opened Runs

  // ---------------------------------------------------------------- reconciles as runs

  ghost function WorkerCalls(c: Choice, n: nat): seq<Action> {
    if n == 0 then [] else [WorkerCall(c)] + WorkerCalls(c, n - 1)
  }

  ghost function NormalReconcileCalls(c: Choice, n: nat): seq<Action> {
    if n == 0 then [] else [NormalCall(c)] + NormalReconcileCalls(c, n - 1)
  }

  /** One whole reconcile of recovery u. */
  ghost function RecoveryReconcile(u: Uid, c: Choice): seq<Action> {
    [WorkerBegin(u, c)] + WorkerCalls(c, CALLS)
  }

  /** One whole normal reconcile. */
  ghost function NormalReconcile(c: Choice): seq<Action> {
    [NormalBegin] + NormalReconcileCalls(c, NORMAL_CALLS)
  }

  /** n reconciles of u in a row. */
  ghost function Reconciles(u: Uid, c: Choice, n: nat): seq<Action> {
    if n == 0 then [] else RecoveryReconcile(u, c) + Reconciles(u, c, n - 1)
  }

  lemma RunFirst(s: State, a: Action, rest: seq<Action>)
    ensures Run(s, [a] + rest) == Run(Apply(s, a), rest)
  {
    hide Apply;
    RunAppend(s, [a], rest);
    assert [a][..0] == [];
  }

  lemma {:induction false} CallsAreRun(s: State, c: Choice, n: nat)
    ensures var p := Calls(s.st, s.worker, c, n); Run(s, WorkerCalls(c, n)) == State(p.st, p.worker, s.normal)
    decreases n
  {
    if n > 0 {
      RunFirst(s, WorkerCall(c), WorkerCalls(c, n - 1));
      hide Run;
      var s' := StepWorker(s, c);
      CallsAreRun(s', c, n - 1);
      CallsAfterStep(s, c, n);
      hide Calls;
      hide StepWorker;
    }
  }

  lemma CallsAfterStep(s: State, c: Choice, n: nat)
    requires n > 0
    ensures Calls(s.st, s.worker, c, n) == Calls(StepWorker(s, c).st, StepWorker(s, c).worker, c, n - 1) &&
            StepWorker(s, c).normal == s.normal
  {
    hide Read;
    hide Write;
    hide AfterWrite;
  }

  lemma {:induction false} NormalCallsAreRun(s: State, c: Choice, n: nat)
    ensures var p := NormalCalls(s.st, s.normal, c, n); Run(s, NormalReconcileCalls(c, n)) == State(p.st, s.worker, p.normal)
    decreases n
  {
    if n > 0 {
      RunFirst(s, NormalCall(c), NormalReconcileCalls(c, n - 1));
      hide Run;
      var s' := StepNormal(s, c);
      NormalCallsAreRun(s', c, n - 1);
      NormalAfterStep(s, c, n);
      hide NormalCalls;
      hide StepNormal;
    }
  }

  lemma NormalAfterStep(s: State, c: Choice, n: nat)
    requires n > 0
    ensures NormalCalls(s.st, s.normal, c, n) == NormalCalls(StepNormal(s, c).st, StepNormal(s, c).normal, c, n - 1)
    ensures StepNormal(s, c).worker == s.worker
  {
    hide NormalRead;
    hide NormalWrite;
    hide AfterNormalWrite;
  }

  lemma ReconcileIsRun(s: State, u: Uid, c: Choice)
    requires s.worker.Idle? && u in s.st.recs
    ensures var p := Reconciled(s.st, u, c); Run(s, RecoveryReconcile(u, c)) == State(p.st, p.worker, s.normal)
  {
    RunFirst(s, WorkerBegin(u, c), WorkerCalls(c, CALLS));
    hide Run;
    hide Calls;
    hide Enter;
    CallsAreRun(Apply(s, WorkerBegin(u, c)), c, CALLS);
  }

  lemma NormalReconcileIsRun(s: State, c: Choice)
    requires s.normal.NIdle? && s.st.wi.Some?
    ensures var p := NormalCalls(s.st, NormalEnter(s.st.wi.value), c, NORMAL_CALLS);
            Run(s, NormalReconcile(c)) == State(p.st, s.worker, p.normal)
  {
    RunFirst(s, NormalBegin, NormalReconcileCalls(c, NORMAL_CALLS));
    hide Run;
    hide NormalCalls;
    hide NormalEnter;
    NormalCallsAreRun(Apply(s, NormalBegin), c, NORMAL_CALLS);
  }

  // ---------------------------------------------------------------- convergence

  lemma {:induction false} ReconcilesConverge(s: State, u: Uid, c: Choice)
    requires Kept(s) && s.worker.Idle? && Environment(s.st, u, c)
    ensures var s' := Run(s, Reconciles(u, c, Remaining(s.st, u)));
            s'.worker.Idle? && s'.normal == s.normal && Kept(s') && Environment(s'.st, u, c) && Remaining(s'.st, u) == 0 &&
            SameInstance(s.st, s'.st)
    decreases Remaining(s.st, u)
  {
    hide Environment;
    hide Inv;
    hide CommitKept;
    hide Calls;
    hide Apply;
    EnvironmentFacts(s.st, u, c);
    var n := Remaining(s.st, u);
    hide Remaining;
    if n > 0 {
      PlacedNow(s, u, c);
      var st' := ReconcileTakesACheckpoint(s.st, u, c);
      ReconcileIsRun(s, u, c);
      RunKeeps(s, RecoveryReconcile(u, c));
      var s1 := Run(s, RecoveryReconcile(u, c));
      ReconcilesConverge(s1, u, c);
      RunAppend(s, RecoveryReconcile(u, c), Reconciles(u, c, n - 1));
    }
  }

  lemma EnvironmentFacts(st: Store, u: Uid, c: Choice)
    requires Environment(st, u, c)
    ensures u in st.recs && st.wi.Some? && TargetPresent(st, u)
  {
    hide Externals;
    hide Validate;
  }

  /** In a recoverable environment with checkpoints left, st' is one checkpoint further. */
  ghost predicate CheckpointTaken(st: Store, u: Uid, c: Choice, st': Store) {
    u in st.recs && Environment(st, u, c) && Remaining(st, u) > 0 ==>
      Environment(st', u, c) && u in st'.recs && Remaining(st', u) == Remaining(st, u) - 1
  }

  /** Any undisturbed reconcile that came to rest, after however many calls, took a checkpoint. */
  lemma ReconcileTakesOne(s: State, u: Uid, c: Choice, k: nat, st': Store)
    requires Kept(s) && u in s.st.recs && Calls(s.st, Enter(s.st.recs[u], c.configured), c, k) == Position(st', Idle)
    ensures CheckpointTaken(s.st, u, c, st')
  {
    hide Calls;
    hide Environment;
    hide Remaining;
    hide Kept;
    hide Enter;
    if Environment(s.st, u, c) && Remaining(s.st, u) > 0 {
      PlacedNow(s, u, c);
      var st1 := ReconcileTakesACheckpoint(s.st, u, c);
      hide WellPlaced;
      EnvironmentFacts(st1, u, c);
      RestIsUnique(s.st, Enter(s.st.recs[u], c.configured), c, k, CALLS);
    }
  }

  lemma PlacedNow(s: State, u: Uid, c: Choice)
    requires Kept(s) && Environment(s.st, u, c)
    ensures WellPlaced(s.st, u, c)
  {
    hide Environment;
    hide Global;
    hide WorkerOk;
    hide NormalOk;
  }

  /** What the last checkpoint means. */
  lemma NothingRemains(st: Store, u: Uid, c: Choice)
    requires WellPlaced(st, u, c) && Remaining(st, u) == 0
    ensures IsComplete(st.recs[u]) && !LockHeld(st, st.recs[u]) && !LockedWi(st.wi.value) &&
            StageNow(st, u) == Some(Complete)
    ensures FicsExact(st, u, st.wi.value.id) && SaTransferred(st, u) && st.recs[u].commitVerified
    ensures RecoverableUami(st.uamiId, st.wi.value.id.key, st.uami.value) && TargetPresent(st, u)
  {
    PlacedFacts(st, u, c);
    ImpliedStage(st, u);
    hide Global;
    hide CommitKept;
    hide Validate;
    hide ExactFics;
    hide RecoverableFics;
    hide RecoverableUami;
    hide RecoverableSa;
    hide Elected;
  }

  lemma DoneIsHanded(st: Store, u: Uid, c: Choice)
    requires WellPlaced(st, u, c) && Remaining(st, u) == 0 && !st.wi.value.deleting
    ensures Handed(st) && st.uami.Some? && u in st.recs && st.wi.value.id.uid == st.recs[u].target
  {
    NothingRemains(st, u, c);
    hide WellPlaced;
    hide Remaining;
    ClassifiersAgree(Req(st.recs[u]), st.wi.value.id, st.uami.value);
    hide Classify;
    hide RecoveryStage;
    hide BaseOwnership;
  }

  /** From every reachable state, with the worker stopped at any point: when the environment is good
      and then left alone, at most six reconciles complete the recovery, leave exactly the
      planned credential on the UAMI and release the target; one normal reconcile then makes
      the target Ready. */
  lemma RecoveryConverges(s0: State, run: seq<Action>, u: Uid, c: Choice) returns (reconciles: nat)
    requires Init(s0)
    requires Environment(Run(s0, run + [WorkerCrash, NormalCrash]).st, u, c)
    requires Calm(c) && !Run(s0, run + [WorkerCrash, NormalCrash]).st.wi.value.deleting
    ensures reconciles <= 6
    ensures var s := Run(s0, run + [WorkerCrash, NormalCrash]);
            var s1 := Run(s, Reconciles(u, c, reconciles));
            var s2 := Run(s1, NormalReconcile(c));
            u in s1.st.recs && IsComplete(s1.st.recs[u]) && StageNow(s1.st, u) == Some(Complete) &&
            !LockHeld(s1.st, s1.st.recs[u]) && s1.st.wi.Some? && FicsExact(s1.st, u, s1.st.wi.value.id) &&
            Settled(s2.st, s1.st.wi.value.id, c.issuer.value) && s1.st.wi.value.id.uid == s1.st.recs[u].target &&
            s2.st.recs == s1.st.recs && s2.st.uami == s1.st.uami
  {
    hide Environment;
    hide Apply;
    hide Kept;
    hide Settled;
    hide Handed;
    hide FicsExact;
    hide NormalCalls;
    hide LockHeld;
    hide StageNow;
    hide IsComplete;
    var actions := run + [WorkerCrash, NormalCrash];
    var s := Run(s0, actions);
    ReachableIsKept(s0, actions);
    BothCrashed(s0, run);
    EnvironmentFacts(s.st, u, c);
    reconciles := Remaining(s.st, u);
    ReconcilesConverge(s, u, c);
    var s1 := Run(s, Reconciles(u, c, reconciles));
    hide Run;
    PlacedNow(s1, u, c);
    NothingRemains(s1.st, u, c);
    DoneIsHanded(s1.st, u, c);
    var st2 := HandoverReachesReady(s1.st, c);
    NormalReconcileIsRun(s1, c);
  }

  lemma BothCrashed(s0: State, run: seq<Action>)
    ensures var s := Run(s0, run + [WorkerCrash, NormalCrash]); s.worker.Idle? && s.normal.NIdle?
  {
    var actions := run + [WorkerCrash, NormalCrash];
    assert actions[..|actions| - 1] == run + [WorkerCrash];
    assert (run + [WorkerCrash])[..|run|] == run;
    hide StepWorker;
    hide StepNormal;
  }
}
