/** Each undisturbed reconcile takes exactly one more durable checkpoint. */
module Passes {
  import opened OwnershipTags
  import opened Azure
  import opened Resources
  import opened Target
  import opened ServiceAccounts
  import opened Protocol
  import opened Invariant
  import opened WorkerWrites
  import opened Convergence
  import Election

  // ---------------------------------------------------------------- the environment

  /** The stage the tags are at for recovery u. */
  function StageNow(st: Store, u: Uid): Option<Stage>
    requires u in st.recs
  {
    if st.uami.None? then None else RecoveryStage(Req(st.recs[u]), st.recs[u].target, st.uami.value)
  }

  /** Azure, the credentials and the ServiceAccount can be recovered by u. */
  ghost predicate Recoverable(st: Store, u: Uid) {
    TargetPresent(st, u) && StageNow(st, u).Some? && Externals(st, u, StageNow(st, u).value)
  }

  /** The environment in which convergence is promised. */
  ghost predicate Environment(st: Store, u: Uid, c: Choice) {
    Recoverable(st, u) && c.configured && c.issuer.Some? && !st.recs[u].deleting && !IsFailed(st.recs[u]) &&
    (!st.recs[u].started ==> Validate(st.recs[u], st.wi.value) == TargetOk && Elected(st.recs, u)) &&
    (st.recs[u].started && !IsComplete(st.recs[u]) ==> LockHeld(st, st.recs[u])) &&
    (st.recs[u].commitVerified ==> SaTransferred(st, u)) &&
    (LockedWi(st.wi.value) ==> st.wi.value.evidence == Some(st.recs[u].source))
  }

  /** The ServiceAccount, if there is one, names the target as its owner. */
  predicate SaTransferred(st: Store, u: Uid)
    requires u in st.recs
  {
    st.sa.Some? ==> OwnedBy(st.recs[u].target, st.sa.value)
  }

  /** The checkpoints still ahead: finalizer, plan, started, commit-verified, complete, released. */
  function Remaining(st: Store, u: Uid): nat
    requires u in st.recs
  {
    var r := st.recs[u];
    (if r.finalizer then 0 else 1) + (if r.plan.Some? then 0 else 1) + (if r.started then 0 else 1) +
    (if r.commitVerified then 0 else 1) + (if IsComplete(r) then 0 else 1) +
    (if IsComplete(r) && !LockHeld(st, r) then 0 else 1)
  }

  /** A verified commit has left the source for good, and keeps the lock until completion. */
  ghost predicate CommitKept(st: Store) {
    forall u | u in st.recs && st.recs[u].commitVerified && st.recs[u].target in st.local ::
      (st.uami.Some? ==> Owner(st.uami.value) != st.recs[u].source) &&
      (!IsComplete(st.recs[u]) ==> LockHeld(st, st.recs[u]))
  }

  /** Where the UAMI stands follows from the checkpoints. */
  lemma ImpliedStage(st: Store, u: Uid)
    requires Global(st) && CommitKept(st) && TargetPresent(st, u) && StageNow(st, u).Some?
    ensures !st.recs[u].started ==> StageNow(st, u) == Some(NotStarted)
    ensures !st.recs[u].commitVerified ==> StageNow(st, u) != Some(Complete)
    ensures st.recs[u].commitVerified ==> StageNow(st, u) in {Some(CommittedFenced), Some(Complete)}
    ensures IsComplete(st.recs[u]) ==> StageNow(st, u) == Some(Complete)
    ensures AtStage(Req(st.recs[u]), st.recs[u].target, st.uami.value, StageNow(st, u).value)
  {
    hide LockHeld;
    hide StageOf;
    var r := st.recs[u];
    assert RecoveryOk(r) && r.uid == u;
    StagesAreDisjoint(Req(r), r.target, st.uami.value);
    if Fence(st.uami.value) == u {
      assert FencedBy(st, u);
    }
  }

  // ---------------------------------------------------------------- updates of the record

  /** The same record further on. */
  ghost predicate Ahead(r: Recovery, r': Recovery) {
    Progress(r, r') && r'.deleting == r.deleting
  }

  lemma ElectedSurvives(recs: map<Uid, Recovery>, u: Uid, r': Recovery)
    requires u in recs && recs[u].uid == u && Ahead(recs[u], r') && Elected(recs, u)
    requires forall v | v in recs && recs[v].uid == u :: v == u
    ensures Elected(recs[u := r'], u)
  {
    var recs' := recs[u := r'];
    assert u in recs' && r' in recs'.Values;
    forall c | c in recs'.Values && c.source == r'.source
      ensures (Election.Active(c) ==> Election.Active(r') && !Election.Precedes(c, r')) && (!Election.Active(r') ==> !Election.Precedes(c, r'))
    {
      var v :| v in recs' && recs'[v] == c;
      if v == u {
        Election.PrecedesIsStrictTotalOrder(r', r', r');
      } else {
        assert c == recs[v] && c in recs.Values;
        assert Election.Precedes(c, r') == Election.Precedes(c, recs[u]);
      }
    }
  }

  lemma RecordEnvironment(st: Store, u: Uid, r': Recovery)
    requires Recoverable(st, u) && Ahead(st.recs[u], r')
    requires r'.plan == st.recs[u].plan || (st.recs[u].plan.None? && StageNow(st, u) == Some(NotStarted) && PlanMatches(st.uami.value, r'.plan.value))
    ensures Recoverable(WithRecord(st, r'), u) && StageNow(WithRecord(st, r'), u) == StageNow(st, u)
  {
    hide RecoverableUami;
    hide PlanMatches;
    hide RecoverableFics;
    hide RecoverableSa;
    hide ExactFics;
    hide AtStage;
  }

  // ---------------------------------------------------------------- the six reconciles

  predicate SameInstance(st: Store, st': Store) {
    st.wi.Some? && st'.wi.Some? && st'.wi.value.id == st.wi.value.id && st'.wi.value.deleting == st.wi.value.deleting
  }

  /** A reachable store in a good environment. */
  ghost predicate WellPlaced(st: Store, u: Uid, c: Choice) {
    Global(st) && CommitKept(st) && Environment(st, u, c)
  }

  lemma PlacedFacts(st: Store, u: Uid, c: Choice)
    requires WellPlaced(st, u, c)
    ensures TargetPresent(st, u) && RecoveryOk(st.recs[u]) && !st.recs[u].deleting && !IsFailed(st.recs[u]) &&
            c.configured
    ensures c.issuer.Some? && st.uami.Some? && StageNow(st, u).Some? && (st.recs[u].commitVerified ==> SaTransferred(st, u))
    ensures forall v | v in st.recs && st.recs[v].uid == u :: v == u
  {
    hide RecoveryOk;
    hide Externals;
    hide MarkersOk;
    hide EvidenceOk;
  }

  /** Moving the record ahead, short of starting it, keeps the environment. */
  lemma WaitingEnvironment(st: Store, u: Uid, r': Recovery, c: Choice)
    requires Environment(st, u, c) && Ahead(st.recs[u], r') && !r'.started && !r'.commitVerified && !IsFailed(r')
    requires r'.plan == st.recs[u].plan || (st.recs[u].plan.None? && StageNow(st, u) == Some(NotStarted) && PlanMatches(st.uami.value, r'.plan.value))
    requires forall v | v in st.recs && st.recs[v].uid == u :: v == u
    ensures Environment(WithRecord(st, r'), u, c)
  {
    assert Validate(r', st.wi.value) == Validate(st.recs[u], st.wi.value);
    hide Validate;
    hide Recoverable;
    hide Elected;
    hide PlanMatches;
    hide StageNow;
    assert TargetPresent(st, u);
    RecordEnvironment(st, u, r');
    ElectedSurvives(st.recs, u, r');
  }

  lemma FinalizerPass(st: Store, u: Uid, c: Choice) returns (st': Store)
    requires WellPlaced(st, u, c) && !st.recs[u].finalizer
    ensures Reconciled(st, u, c) == Position(st', Idle) && Environment(st', u, c) &&
            Remaining(st', u) == Remaining(st, u) - 1
    ensures SameInstance(st, st') && st' == st.(recs := st'.recs)
    ensures st'.recs == st.recs[u := st.recs[u].(finalizer := true)]
  {
    hide Calls;
    hide Environment;
    PlacedFacts(st, u, c);
    var r' := st.recs[u].(finalizer := true);
    st' := WithRecord(st, r');
    WriteCall(st, u, false, AddFinalizer, c, CALLS);
    IdleStays(st', c, CALLS - 1);
    WaitingEnvironment(st, u, r', c);
  }

  /** Entering a live reconcile leads to the target. */
  lemma EnterLive(st: Store, u: Uid, c: Choice)
    requires WellPlaced(st, u, c) && st.recs[u].finalizer && !IsComplete(st.recs[u])
    ensures Validate(st.recs[u], st.wi.value) == TargetOk
    ensures Reconciled(st, u, c) == Calls(st, Forward(st.recs[u], false, st.wi.value.id), c, CALLS - 1)
  {
    hide Calls;
    hide Forward;
    PlacedFacts(st, u, c);
    if st.recs[u].started {
      LockedTargetIsValid(st, u);
    }
    ReadCall(st, u, false, ReadTarget, c, CALLS);
    hide Validate;
  }

  lemma PreflightCalls(st: Store, u: Uid, c: Choice, n: nat)
    requires Recoverable(st, u) && StageNow(st, u) == Some(NotStarted) && c.issuer.Some? && n >= 4
    ensures var t := st.wi.value.id;
            st.uami.Some? &&
            Calls(st, Busy(u, false, PreIssuer(t)), c, n) ==
              Calls(st, Patching(u, false, PatchPlan(PlanFor(st.uami.value, c.issuer.value, Subject(t)))), c, n - 4)
  {
    hide Calls;
    hide RecoverableUami;
    hide RecoverableFics;
    hide RecoverableSa;
    hide RecoveryStage;
    hide PlanFor;
    hide AtStage;
    var t := st.wi.value.id;
    var plan := PlanFor(st.uami.value, c.issuer.value, Subject(t));
    ReadCall(st, u, false, PreIssuer(t), c, n);
    ReadCall(st, u, false, PreUami(t, c.issuer.value), c, n - 1);
    ReadCall(st, u, false, PreFics(t, plan), c, n - 2);
    ReadCall(st, u, false, PreSa(t, plan), c, n - 3);
  }

  lemma PreflightPass(st: Store, u: Uid, c: Choice) returns (st': Store)
    requires WellPlaced(st, u, c) && st.recs[u].finalizer && st.recs[u].plan.None?
    ensures Reconciled(st, u, c) == Position(st', Idle) && Environment(st', u, c) &&
            Remaining(st', u) == Remaining(st, u) - 1
    ensures SameInstance(st, st') && st' == st.(recs := st'.recs)
    ensures st'.recs[u].finalizer && !st'.recs[u].started
    ensures st'.recs[u].plan.Some? &&
            st'.recs[u].plan.value.tuple == Tuple(c.issuer.value, Subject(st.wi.value.id), [AUDIENCE])
  {
    hide Calls;
    hide Externals;
    PlacedFacts(st, u, c);
    ImpliedStage(st, u);
    EnterLive(st, u, c);
    PreflightCalls(st, u, c, CALLS - 1);
    var patch := PatchPlan(PlanFor(st.uami.value, c.issuer.value, Subject(st.wi.value.id)));
    var r' := ApplyPatch(st.recs[u], patch);
    st' := WithRecord(st, r');
    WriteCall(st, u, false, PatchStatus(patch), c, CALLS - 5);
    IdleStays(st', c, CALLS - 6);
    hide Environment;
    hide StageNow;
    PatchedRecordOk(st.recs[u], patch);
    WaitingEnvironment(st, u, r', c);
  }

  /** A target that validates is there to be locked. */
  lemma LockTakes(st: Store, u: Uid)
    requires TargetPresent(st, u) && !st.recs[u].started && Validate(st.recs[u], st.wi.value) == TargetOk
    ensures var st' := PatchedTarget(st, u, LOCK_FROM, ReasonRecoveryInProgress);
            st' == st.(wi := st'.wi, clock := st'.clock) && TargetPresent(st', u) &&
            SameInstance(st, st') && LockHeld(st', st.recs[u])
  {
  }

  lemma StartPass(st: Store, u: Uid, c: Choice) returns (st': Store)
    requires WellPlaced(st, u, c) && st.recs[u].finalizer && st.recs[u].plan.Some? && !st.recs[u].started
    ensures Reconciled(st, u, c) == Position(st', Idle) && Environment(st', u, c) &&
            Remaining(st', u) == Remaining(st, u) - 1
    ensures SameInstance(st, st') && st' == st.(recs := st'.recs, wi := st'.wi, clock := st'.clock)
    ensures st'.recs[u].started && !st'.recs[u].commitVerified && StageNow(st', u) == StageNow(st, u)
  {
    hide Calls;
    hide Externals;
    hide Elected;
    hide Validate;
    hide PatchedTarget;
    PlacedFacts(st, u, c);
    EnterLive(st, u, c);
    LockTakes(st, u);
    ReadCall(st, u, false, ListForStart, c, CALLS - 1);
    WriteCall(st, u, false, LockTarget, c, CALLS - 2);
    var st1 := PatchedTarget(st, u, LOCK_FROM, ReasonRecoveryInProgress);
    var r' := ApplyPatch(st.recs[u], PatchStarted);
    st' := WithRecord(st1, r');
    WriteCall(st1, u, false, PatchStatus(PatchStarted), c, CALLS - 3);
    IdleStays(st', c, CALLS - 4);
    PatchedRecordOk(st.recs[u], PatchStarted);
    hide WellPlaced;
    TargetEnvironment(st, st1, u);
    hide Recoverable;
    RecordEnvironment(st1, u, r');
    LockIgnores(st1, st', st.recs[u], r');
  }

  lemma LockIgnores(st: Store, st': Store, r: Recovery, r': Recovery)
    requires st'.wi == st.wi && r'.target == r.target && r'.key == r.key && r'.source == r.source
    ensures LockHeld(st, r) == LockHeld(st', r')
  {
  }

  /** The target's status does not matter to the external resources. */
  lemma TargetEnvironment(st: Store, st': Store, u: Uid)
    requires Recoverable(st, u) && st' == st.(wi := st'.wi, clock := st'.clock)
    requires st'.wi.Some? && st'.wi.value.id == st.wi.value.id
    ensures Recoverable(st', u) && StageNow(st', u) == StageNow(st, u)
  {
    hide RecoverableUami;
    hide PlanMatches;
    hide RecoverableFics;
    hide RecoverableSa;
    hide ExactFics;
    hide AtStage;
  }

  /** The environment of a started recovery, from the state inside its reconcile. */
  lemma GoingEnvironment(st: Store, u: Uid, c: Choice, stage: Stage)
    requires Going(st, u, stage) && c.configured && c.issuer.Some? && !st.recs[u].deleting
    requires st.recs[u].commitVerified ==> SaTransferred(st, u)
    ensures Environment(st, u, c) && StageNow(st, u) == Some(stage)
  {
    StagesAreDisjoint(Req(st.recs[u]), st.recs[u].target, st.uami.value);
    hide RecoverableUami;
    hide PlanMatches;
    hide RecoverableFics;
    hide RecoverableSa;
    hide ExactFics;
    hide LockHeld;
    hide AtStage;
  }

  lemma IsGoing(st: Store, u: Uid, c: Choice)
    requires WellPlaced(st, u, c) && st.recs[u].started && !IsComplete(st.recs[u])
    ensures StageNow(st, u).Some? && Going(st, u, StageNow(st, u).value)
  {
    hide Externals;
    PlacedFacts(st, u, c);
    hide Validate;
    hide StageNow;
  }

  lemma AdvancePass(st: Store, u: Uid, c: Choice) returns (st': Store)
    requires WellPlaced(st, u, c) && st.recs[u].started && !st.recs[u].commitVerified
    ensures Reconciled(st, u, c) == Position(st', Idle) && Environment(st', u, c) &&
            Remaining(st', u) == Remaining(st, u) - 1
    ensures SameInstance(st, st')
  {
    hide Calls;
    hide Going;
    hide StageNow;
    hide Environment;
    PlacedFacts(st, u, c);
    IsGoing(st, u, c);
    EnterLive(st, u, c);
    var stage := StageNow(st, u).value;
    var st1, left := AdvanceSegment(st, u, false, c, stage, CALLS - 1);
    hide WellPlaced;
    StageIs(st1, u, Committed(Marked(stage)));
    WriteCall(st1, u, false, PatchStatus(PatchCommitVerified), c, left);
    var r' := ApplyPatch(st.recs[u], PatchCommitVerified);
    st' := WithRecord(st1, r');
    IdleStays(st', c, left - 1);
    PatchedRecordOk(st.recs[u], PatchCommitVerified);
    GoingOn(st1, u, r', Committed(Marked(stage)));
    GoingEnvironment(st', u, c, Committed(Marked(stage)));
    LockIgnores(st, st', st.recs[u], r');
  }

  lemma GoingOn(st: Store, u: Uid, r': Recovery, stage: Stage)
    requires Going(st, u, stage) && Ahead(st.recs[u], r') && !IsComplete(r') && !IsFailed(r')
    ensures Going(WithRecord(st, r'), u, stage)
  {
    hide RecoverableUami;
    hide PlanMatches;
    hide RecoverableFics;
    hide RecoverableSa;
    hide ExactFics;
    hide AtStage;
    hide IsComplete;
    hide IsFailed;
  }

  lemma FinalizePass(st: Store, u: Uid, c: Choice) returns (st': Store)
    requires WellPlaced(st, u, c) && st.recs[u].commitVerified && !IsComplete(st.recs[u])
    ensures Reconciled(st, u, c) == Position(st', Idle) && Environment(st', u, c) &&
            Remaining(st', u) == Remaining(st, u) - 1
    ensures SameInstance(st, st')
  {
    hide Calls;
    hide Going;
    hide Environment;
    hide Recoverable;
    PlacedFacts(st, u, c);
    IsGoing(st, u, c);
    ImpliedStage(st, u);
    EnterLive(st, u, c);
    var stage := StageNow(st, u).value;
    var st1, left := FinalizeSegment(st, u, false, c, stage, CALLS - 1);
    hide WellPlaced;
    StageIs(st1, u, Complete);
    WriteCall(st1, u, false, PatchStatus(PatchComplete), c, left);
    var r' := ApplyPatch(st.recs[u], PatchComplete);
    st' := WithRecord(st1, r');
    IdleStays(st', c, left - 1);
    PatchedRecordOk(st.recs[u], PatchComplete);
    GoingEnvironment(st1, u, c, Complete);
    CompletedEnvironment(st1, u, r', c);
    LockIgnores(st, st', st.recs[u], r');
    hide StageNow;
  }

  lemma CompletedEnvironment(st: Store, u: Uid, r': Recovery, c: Choice)
    requires Environment(st, u, c) && Ahead(st.recs[u], r') && r'.plan == st.recs[u].plan && r'.started &&
             IsComplete(r') && !IsFailed(r')
    requires st.recs[u].commitVerified
    ensures Environment(WithRecord(st, r'), u, c)
  {
    RecordEnvironment(st, u, r');
    hide Recoverable;
  }

  /** The last one: the target is handed back to the normal reconciler. */
  lemma ReleasePass(st: Store, u: Uid, c: Choice) returns (st': Store)
    requires WellPlaced(st, u, c) && IsComplete(st.recs[u]) && LockHeld(st, st.recs[u])
    ensures Reconciled(st, u, c) == Position(st', Idle) && Environment(st', u, c) &&
            Remaining(st', u) == Remaining(st, u) - 1
    ensures SameInstance(st, st')
  {
    hide Calls;
    PlacedFacts(st, u, c);
    st' := Write(st, u, ReleaseCompleted(false));
    WriteCall(st, u, false, ReleaseCompleted(false), c, CALLS);
    IdleStays(st', c, CALLS - 1);
    hide WellPlaced;
    TargetEnvironment(st, st', u);
    hide Recoverable;
  }

  /** One undisturbed reconcile takes exactly one checkpoint and leaves the environment good. */
  lemma ReconcileTakesACheckpoint(st: Store, u: Uid, c: Choice) returns (st': Store)
    requires WellPlaced(st, u, c) && Remaining(st, u) > 0
    ensures Reconciled(st, u, c) == Position(st', Idle) && Environment(st', u, c) &&
            Remaining(st', u) == Remaining(st, u) - 1
    ensures SameInstance(st, st')
  {
    hide Environment;
    hide Calls;
    PlacedFacts(st, u, c);
    var r := st.recs[u];
    hide WellPlaced;
    if !r.finalizer {
      st' := FinalizerPass(st, u, c);
    } else if r.plan.None? {
      st' := PreflightPass(st, u, c);
    } else if !r.started {
      st' := StartPass(st, u, c);
    } else if !r.commitVerified {
      st' := AdvancePass(st, u, c);
    } else if !IsComplete(r) {
      st' := FinalizePass(st, u, c);
    } else {
      st' := ReleasePass(st, u, c);
    }
  }
}
