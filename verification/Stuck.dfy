/** A started recovery whose lock was never taken can never finish.

    patchTargetRecoveryCondition answers success without writing when the target no longer carries
    the evidence, and startRecovery then records MutationStarted. From there no action of
    anybody restores the lock, so "started" alone does not promise convergence. */
module Stuck {
  import opened OwnershipTags
  import opened Azure
  import opened Resources
  import opened Target
  import opened ServiceAccounts
  import opened Protocol
  import opened Invariant
  import opened Safety
  import opened FenceTheorems
  import opened LockTheorems
  import opened Convergence
  import opened Passes
  import opened Runs
  import opened Handover
  import opened ConvergenceTheorems

  /** Started, not verified, and the target does not carry the lock. */
  predicate Stranded(st: Store, u: Uid) {
    u in st.recs && st.recs[u].started && !st.recs[u].commitVerified && st.recs[u].target in st.local &&
    !LockHeld(st, st.recs[u])
  }

  // ---------------------------------------------------------------- who takes a lock

  predicate LockTaken(st: Store, st': Store) {
    st'.wi.Some? && LockedWi(st'.wi.value) &&
    !(st.wi.Some? && LockedWi(st.wi.value) && st.wi.value.evidence == st'.wi.value.evidence && st.wi.value.id == st'.wi.value.id)
  }

  lemma WorkerTakesLock(st: Store, u: Uid, at: At)
    requires u in st.recs && LockTaken(st, Write(st, u, at))
    ensures at.LockTarget? && Write(st, u, at).wi.value.evidence == Some(st.recs[u].source)
  {
    hide Transferred;
    hide Upsert;
    hide MergeTags;
    hide WithoutFence;
    hide PatchConds;
  }

  lemma NormalTakesNoLock(s: State, c: Choice)
    requires Inv(s)
    ensures !LockTaken(s.st, StepNormal(s, c).st)
  {
    hide MarkersOk;
    hide EvidenceOk;
    hide RecordsOk;
    hide WorkerOk;
    hide Upsert;
    hide NormalRead;
    hide AfterNormalWrite;
    hide Persisted;
    hide Unfenced;
    hide Pinned;
    hide AtSource;
  }

  lemma UsersTakeNoLock(s: State, a: Action)
    requires !a.WorkerCall? && !a.NormalCall?
    ensures !LockTaken(s.st, Apply(s, a).st)
  {
    hide Enter;
    hide NormalEnter;
  }

  /** A lock is taken only for a source none of whose recoveries has started. */
  lemma LockIsTakenBeforeStart(s: State, a: Action)
    requires Inv(s) && LockTaken(s.st, Apply(s, a).st)
    ensures Apply(s, a).st.wi.value.evidence.Some? && NoneStarted(s.st.recs, Apply(s, a).st.wi.value.evidence.value)
  {
    match a
    case WorkerCall(c) =>
      hide NormalOk;
      hide Global;
      if s.worker.Busy? && s.worker.u in s.st.recs && IsWrite(s.worker.at) {
        WorkerTakesLock(s.st, s.worker.u, s.worker.at);
        assert WorkerAt(s.st, s.worker.u, s.worker.deletion, s.worker.at);
      }
      hide Write;
      hide Read;
      hide AfterWrite;
      hide LockedWi;
      hide Startable;
    case NormalCall(c) => NormalTakesNoLock(s, c); hide Inv; hide StepNormal;
    case _ => UsersTakeNoLock(s, a); hide Inv; hide Apply;
  }

  // ---------------------------------------------------------------- stranded for ever

  lemma StrandedStays(s: State, a: Action, u: Uid)
    requires Inv(s) && Stranded(s.st, u)
    ensures Stranded(Apply(s, a).st, u) && !IsComplete(Apply(s, a).st.recs[u])
  {
    assert RecoveryOk(s.st.recs[u]);
    StatusIsForwardOnly(s, a, u);
    LocalGrows(s, a);
    ActionKeeps(s, a);
    var st, st' := s.st, Apply(s, a).st;
    hide Apply;
    assert RecoveryOk(st'.recs[u]);
    if st'.recs[u].commitVerified {
      VerifiedByPatch(s, a, u);
    }
    if LockHeld(st', st'.recs[u]) && LockTaken(st, st') {
      LockIsTakenBeforeStart(s, a);
    }
    hide Inv;
    hide CondTrue;
    hide CondsOk;
  }

  lemma LocalGrows(s: State, a: Action)
    ensures s.st.local <= Apply(s, a).st.local
  {
    match a
    case WorkerCall(c) => WorkerLeavesLocal(s, c); hide StepWorker;
    case NormalCall(c) => NormalLeavesLocal(s, c); hide StepNormal;
    case _ => hide NormalEnter; hide Enter;
  }

  /** Whatever happens afterwards, a stranded recovery neither completes nor goes away. */
  lemma {:induction false} StrandedForever(s: State, u: Uid, more: seq<Action>)
    requires Inv(s) && Stranded(s.st, u)
    ensures Inv(Run(s, more)) && Stranded(Run(s, more).st, u) && !IsComplete(Run(s, more).st.recs[u])
    decreases |more|
  {
    if more == [] {
      assert RecoveryOk(s.st.recs[u]);
    } else {
      hide Inv;
      hide Apply;
      hide Stranded;
      hide IsComplete;
      var n := |more| - 1;
      StrandedForever(s, u, more[..n]);
      ActionKeeps(Run(s, more[..n]), more[n]);
      StrandedStays(Run(s, more[..n]), more[n], u);
    }
  }

  // ---------------------------------------------------------------- exactly when a started recovery completes

  /** The external resources are good for u as far as its target exists. */
  ghost predicate ResourcesGood(st: Store, u: Uid)
    requires u in st.recs
  {
    TargetPresent(st, u) ==> Recoverable(st, u) && (st.recs[u].commitVerified ==> SaTransferred(st, u))
  }

  ghost predicate Completable(s: State, u: Uid) {
    exists more: seq<Action> :: var s' := Run(s, more); u in s'.st.recs && IsComplete(s'.st.recs[u])
  }

  /** Over good resources, a started and unfinished recovery that nobody deletes can complete if
      and only if its target carries the lock. */
  lemma CompletesExactlyUnderLock(s0: State, run: seq<Action>, u: Uid, c: Choice)
    requires Init(s0) && Calm(c)
    requires var s := Run(s0, run);
             u in s.st.recs && s.st.recs[u].started && !IsComplete(s.st.recs[u]) && !s.st.recs[u].deleting &&
             s.st.recs[u].target in s.st.local && ResourcesGood(s.st, u)
    ensures var s := Run(s0, run); Completable(s, u) <==> LockHeld(s.st, s.st.recs[u])
  {
    var s := Run(s0, run);
    ReachableIsKept(s0, run);
    assert RecoveryOk(s.st.recs[u]) && s.st.recs[u].uid == u;
    if LockHeld(s.st, s.st.recs[u]) {
      CompletesUnderLock(s, u, c);
    } else {
      forall more: seq<Action>
        ensures var s' := Run(s, more); !(u in s'.st.recs && IsComplete(s'.st.recs[u]))
      {
        hide Run;
        hide Inv;
        hide RecoveryOk;
        StrandedForever(s, u, more);
      }
    }
  }

  lemma CompletesUnderLock(s: State, u: Uid, c: Choice)
    requires Kept(s) && Calm(c) && u in s.st.recs && LockHeld(s.st, s.st.recs[u])
    requires s.st.recs[u].started && !IsComplete(s.st.recs[u]) && !s.st.recs[u].deleting
    requires s.st.recs[u].target in s.st.local && ResourcesGood(s.st, u)
    ensures Completable(s, u)
  {
    hide Inv;
    hide CommitKept;
    hide ResourcesGood;
    hide Environment;
    hide StepWorker;
    hide StepNormal;
    hide CondTrue;
    var s1 := Apply(s, WorkerCrash);
    ActionKeepsCommits(s, WorkerCrash);
    LockedEnvironment(s, u, c);
    var more := Reconciles(u, c, Remaining(s.st, u));
    RunFirst(s, WorkerCrash, more);
    ReconcilesConverge(s1, u, c);
    var s2 := Run(s1, more);
    hide Run;
    PlacedNow(s2, u, c);
    EnvironmentFacts(s2.st, u, c);
    NothingRemains(s2.st, u, c);
    assert Run(s, [WorkerCrash] + more) == s2;
  }

  lemma LockedEnvironment(s: State, u: Uid, c: Choice)
    requires Kept(s) && Calm(c) && u in s.st.recs && LockHeld(s.st, s.st.recs[u])
    requires s.st.recs[u].started && !IsComplete(s.st.recs[u]) && !s.st.recs[u].deleting
    requires s.st.recs[u].target in s.st.local && ResourcesGood(s.st, u)
    ensures Environment(s.st, u, c)
  {
    hide Externals;
    hide MarkersOk;
    hide EvidenceOk;
    hide SourceHeld;
    hide WorkerOk;
    hide NormalOk;
    hide CommitKept;
    assert RecoveryOk(s.st.recs[u]) && s.st.recs[u].uid == u;
  }

  // ---------------------------------------------------------------- exactly when a start locks

  /** Actions of everybody but the recovery worker. */
  predicate OthersOnly(actions: seq<Action>) {
    forall i | 0 <= i < |actions| :: !IsWorkerAction(actions[i])
  }

  /** Recovery u is between its lock and the record of its start. */
  ghost predicate Starting(s: State, u: Uid, del: bool, locked: bool) {
    Inv(s) && s.worker == Busy(u, del, PatchStatus(PatchStarted)) && u in s.st.recs && (LockHeld(s.st, s.st.recs[u]) <==> locked)
  }

  lemma LockCall(s: State, u: Uid, del: bool, c: Choice)
    requires Inv(s) && s.worker == Busy(u, del, LockTarget) && u in s.st.recs
    ensures Starting(Apply(s, WorkerCall(c)), u, del, Patchable(s.st.recs[u], s.st.wi, LOCK_FROM))
  {
    ActionKeeps(s, WorkerCall(c));
    hide Inv;
  }

  lemma OthersKeepStarting(s: State, a: Action, u: Uid, del: bool, locked: bool)
    requires Starting(s, u, del, locked) && OthersOnly([a])
    ensures Starting(Apply(s, a), u, del, locked)
  {
    assert a == [a][0];
    var r, st, st' := s.st.recs[u], s.st, Apply(s, a).st;
    ActionKeeps(s, a);
    OthersKeepStarter(s, a, u, del);
    if LockGone(st, st') {
      OnlyReleaseEndsLock(s, a);
    }
    if LockTaken(st, st') {
      if a.NormalCall? {
        NormalTakesNoLock(s, a.c);
        hide StepNormal;
      } else {
        UsersTakeNoLock(s, a);
      }
    }
    hide Inv;
    hide Apply;
  }

  lemma OthersKeepStarter(s: State, a: Action, u: Uid, del: bool)
    requires Inv(s) && s.worker == Busy(u, del, PatchStatus(PatchStarted)) && u in s.st.recs && OthersOnly([a])
    ensures Apply(s, a).worker == s.worker && u in Apply(s, a).st.recs && u in s.st.used
    ensures Apply(s, a).st.recs[u] == s.st.recs[u] || Apply(s, a).st.recs[u] == s.st.recs[u].(deleting := true)
  {
    assert a == [a][0];
    assert PatchAt(s.st, s.st.recs[u], PatchStarted) && u in s.st.used;
    hide Inv;
    hide NormalRead;
    hide AfterNormalWrite;
    hide NormalWrite;
    hide StepWorker;
    if a.NormalCall? {
      NormalLeavesRecords(s, a.c);
    } else {
      UsersLeaveRecords(s, a, u);
    }
  }

  lemma {:induction false} OthersKeepStartingAll(s: State, others: seq<Action>, u: Uid, del: bool, locked: bool)
    requires Starting(s, u, del, locked) && OthersOnly(others)
    ensures Starting(Run(s, others), u, del, locked)
    decreases |others|
  {
    hide Starting;
    hide Apply;
    if others != [] {
      var n := |others| - 1;
      OthersKeepStartingAll(s, others[..n], u, del, locked);
      assert OthersOnly([others[n]]);
      OthersKeepStarting(Run(s, others[..n]), others[n], u, del, locked);
    }
  }

  lemma StartCall(s: State, u: Uid, del: bool, locked: bool, c: Choice)
    requires Starting(s, u, del, locked)
    ensures var st' := Apply(s, WorkerCall(c)).st;
            u in st'.recs && st'.recs[u].started && !st'.recs[u].commitVerified && st'.recs[u].target == s.st.recs[u].target &&
            (LockHeld(st', st'.recs[u]) <==> locked) && st'.local == s.st.local
  {
    assert PatchAt(s.st, s.st.recs[u], PatchStarted) && RecoveryOk(s.st.recs[u]);
    hide Inv;
    hide PatchConds;
  }

  /** The exact condition before the start. Whatever others do between the lock and the record of the
      start, the recovery ends up started; its target is locked if and only if the patch found it
      with its evidence and a Ready=False reason it may lock from; and without that it is
      stranded. */
  lemma StartLocksExactly(s: State, u: Uid, del: bool, others: seq<Action>, c: Choice, c': Choice)
    requires Inv(s) && s.worker == Busy(u, del, LockTarget) && u in s.st.recs && OthersOnly(others)
    ensures var patchable := Patchable(s.st.recs[u], s.st.wi, LOCK_FROM);
            var st' := Run(s, [WorkerCall(c)] + (others + [WorkerCall(c')])).st;
            u in st'.recs && st'.recs[u].started && (LockHeld(st', st'.recs[u]) <==> patchable) &&
            (st'.recs[u].target in st'.local ==> (Stranded(st', u) <==> !patchable))
  {
    var patchable := Patchable(s.st.recs[u], s.st.wi, LOCK_FROM);
    LockCall(s, u, del, c);
    hide Inv;
    hide Patchable;
    hide Apply;
    hide Starting;
    var s1 := Apply(s, WorkerCall(c));
    OthersKeepStartingAll(s1, others, u, del, patchable);
    var s2 := Run(s1, others);
    StartCall(s2, u, del, patchable, c');
    RunFirst(s, WorkerCall(c), others + [WorkerCall(c')]);
    assert (others + [WorkerCall(c')])[..|others|] == others;
    assert Run(s1, others + [WorkerCall(c')]) == Apply(s2, WorkerCall(c'));
  }

  // ---------------------------------------------------------------- how a recovery gets stranded

  /** The moment before a recovery starts: elected, planned, its target published but not locked. */
  ghost predicate AboutToStart(s: State, u: Uid, c: Choice) {
    Kept(s) && s.worker.Idle? && s.normal.NIdle? && Environment(s.st, u, c) && Remaining(s.st, u) == 4 &&
    s.st.recs[u].plan.Some? && s.st.recs[u].finalizer && !LockedWi(s.st.wi.value)
  }

  /** The worker validates the target and wins the election; then a normal reconcile one of
      whose reads fails publishes Ready=False and drops the evidence; then the worker goes on. */
  ghost function FailedReadRace(u: Uid, c: Choice): seq<Action> {
    ([WorkerBegin(u, c)] + WorkerCalls(c, 2)) +
    (([NormalBegin] + NormalReconcileCalls(c.(fails := true), 3)) + WorkerCalls(c, 2))
  }

  /** The target after the failing normal reconcile: no evidence, not locked. */
  predicate Dropped(st: Store, st': Store) {
    st.wi.Some? && st'.wi.Some? && st' == st.(wi := st'.wi, clock := st'.clock) && st'.wi.value.id == st.wi.value.id &&
    st'.wi.value.evidence.None?
  }

  lemma FailedReadDrops(st: Store, c: Choice)
    requires st.wi.Some? && !st.wi.value.deleting && st.wi.value.finalizer && !LockedWi(st.wi.value)
    requires c.configured && c.issuer.Some? && c.fails
    ensures var p := NormalCalls(st, NormalEnter(st.wi.value), c, 3); p.normal.NIdle? && Dropped(st, p.st)
  {
    hide NormalCalls;
    var w := st.wi.value;
    NormalReadCall(st, w, NIssuer, c, 3);
    NormalReadCall(st, w, NInspect(c.issuer.value), c, 2);
    DropCall(st, w, "ServiceAccountReadFailed", c, 1);
  }

  lemma DropCall(st: Store, w: Wi, name: string, c: Choice, k: nat)
    requires st.wi == Some(w) && k >= 1
    ensures var p := NormalCalls(st, NotReady(w, name), c, k); p.normal.NIdle? && Dropped(st, p.st)
  {
    hide NormalCalls;
    NormalWriteCall(st, w, NStatus(NotReadyPatch(ReasonOther(name))), c, k);
    NormalIdleStays(NormalWrite(st, w, NStatus(NotReadyPatch(ReasonOther(name))), c), c, k - 1);
  }

  lemma UpToTheLock(st: Store, u: Uid, c: Choice)
    requires TargetPresent(st, u) && c.configured && Elected(st.recs, u) &&
             Validate(st.recs[u], st.wi.value) == TargetOk
    requires var r := st.recs[u];
             r.finalizer && !r.deleting && r.plan.Some? && !r.started && !r.commitVerified && !IsComplete(r) && !IsFailed(r)
    ensures Calls(st, Enter(st.recs[u], c.configured), c, 2) == Position(st, Busy(u, false, LockTarget))
  {
    hide Validate;
    hide Elected;
    hide CondTrue;
    ReadCall(st, u, false, ReadTarget, c, 2);
    ReadCall(st, u, false, ListForStart, c, 1);
  }

  lemma PastTheLock(st: Store, u: Uid, c: Choice)
    requires TargetPresent(st, u) && st.wi.value.evidence.None? && !st.recs[u].commitVerified
    ensures Stranded(Calls(st, Busy(u, false, LockTarget), c, 2).st, u)
  {
    WriteCall(st, u, false, LockTarget, c, 2);
    var st1 := Write(st, u, LockTarget);
    WriteCall(st1, u, false, PatchStatus(PatchStarted), c, 1);
    hide PatchConds;
  }

  lemma AboutToStartFacts(s: State, u: Uid, c: Choice)
    requires AboutToStart(s, u, c)
    ensures TargetPresent(s.st, u) && c.configured && c.issuer.Some? && Elected(s.st.recs, u)
    ensures Validate(s.st.recs[u], s.st.wi.value) == TargetOk && s.st.wi.value.finalizer && !s.st.wi.value.deleting
    ensures var r := s.st.recs[u];
            r.finalizer && !r.deleting && r.plan.Some? && !r.started && !r.commitVerified && !IsComplete(r) && !IsFailed(r)
  {
    hide Externals;
    hide MarkersOk;
    hide EvidenceOk;
    hide SourceHeld;
    hide WorkerOk;
    hide NormalOk;
    hide CommitKept;
    hide Elected;
    assert RecoveryOk(s.st.recs[u]);
  }

  /** Every recovery that is about to start can be stranded by one failing normal reconcile, and
      then never completes. */
  lemma RaceStrands(s: State, u: Uid, c: Choice, more: seq<Action>)
    requires AboutToStart(s, u, c)
    ensures var s' := Run(s, FailedReadRace(u, c));
            Stranded(s'.st, u) && Stranded(Run(s', more).st, u) && !IsComplete(Run(s', more).st.recs[u])
  {
    AboutToStartFacts(s, u, c);
    assert Kept(s) && s.worker.Idle? && s.normal.NIdle? && !LockedWi(s.st.wi.value);
    hide AboutToStart;
    hide Kept;
    hide Stranded;
    hide Validate;
    hide Elected;
    hide Apply;
    hide Calls;
    hide NormalCalls;
    hide CondTrue;
    var bad := c.(fails := true);
    var first, second, third := [WorkerBegin(u, c)] + WorkerCalls(c, 2), [NormalBegin] + NormalReconcileCalls(bad, 3), WorkerCalls(c, 2);
    RunAppend(s, first, second + third);
    var s1 := Run(s, first);
    RunAppend(s1, second, third);
    FirstPart(s, u, c);
    SecondPart(s1, bad);
    var s2 := Run(s1, second);
    CallsAreRun(s2, c, 2);
    PastTheLock(s2.st, u, c);
    var s3 := Run(s2, third);
    RunKeeps(s, FailedReadRace(u, c));
    KeptIsInv(s3);
    StrandedForever(s3, u, more);
  }

  lemma KeptIsInv(s: State)
    requires Kept(s)
    ensures Inv(s)
  {
  }

  lemma FirstPart(s: State, u: Uid, c: Choice)
    requires s.worker.Idle? && TargetPresent(s.st, u) && c.configured && Elected(s.st.recs, u) &&
             Validate(s.st.recs[u], s.st.wi.value) == TargetOk
    requires var r := s.st.recs[u];
             r.finalizer && !r.deleting && r.plan.Some? && !r.started && !r.commitVerified && !IsComplete(r) && !IsFailed(r)
    ensures Run(s, [WorkerBegin(u, c)] + WorkerCalls(c, 2)) == s.(worker := Busy(u, false, LockTarget))
  {
    RunFirst(s, WorkerBegin(u, c), WorkerCalls(c, 2));
    UpToTheLock(s.st, u, c);
    hide Run;
    hide Calls;
    hide Enter;
    hide Validate;
    hide Elected;
    CallsAreRun(Apply(s, WorkerBegin(u, c)), c, 2);
  }

  lemma SecondPart(s: State, c: Choice)
    requires s.normal.NIdle? && s.st.wi.Some? && !s.st.wi.value.deleting && s.st.wi.value.finalizer &&
             !LockedWi(s.st.wi.value)
    requires c.configured && c.issuer.Some? && c.fails
    ensures var s' := Run(s, [NormalBegin] + NormalReconcileCalls(c, 3)); s'.worker == s.worker && Dropped(s.st, s'.st)
  {
    RunFirst(s, NormalBegin, NormalReconcileCalls(c, 3));
    FailedReadDrops(s.st, c);
    hide Run;
    hide NormalCalls;
    hide NormalEnter;
    NormalCallsAreRun(Apply(s, NormalBegin), c, 3);
  }
}
