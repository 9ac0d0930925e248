/** The safety theorems over whole runs: any initial store, any interleaving of calls, crashes,
    users and outsiders, any number of recoveries. */
module SafetyTheorems {
  import opened OwnershipTags
  import opened Azure
  import opened Resources
  import opened Target
  import opened ServiceAccounts
  import opened Protocol
  import opened Invariant
  import opened Safety
  import opened FenceTheorems
  import opened LockTheorems
  import opened Passes

  // ---------------------------------------------------------------- the lock

  /** Whenever a recovery is about to change Azure or the ServiceAccount, its target is locked and
      its mutation is on record. */
  lemma EveryWriteIsUnderLock(s0: State, run: seq<Action>, c: Choice)
    requires Init(s0)
    requires var s := Run(s0, run); !SameExternals(s.st, Apply(s, WorkerCall(c)).st)
    ensures var s := Run(s0, run); s.worker.Busy? && s.worker.u in s.st.recs && MutatesExternals(s.worker.at)
    ensures var s, s' := Run(s0, run), Apply(Run(s0, run), WorkerCall(c));
            var r := s.st.recs[s.worker.u];
            r.started && r.plan.Some? && LockHeld(s.st, r) && s'.st.wi == s.st.wi && s'.st.recs == s.st.recs
  {
    ReachableIsSafe(s0, run);
    LockHeldAtEveryWrite(Run(s0, run), c);
    hide *;
  }

  /** Only a completed release, or a cancelled one before any recovery of that source has started,
      takes a lock away. */
  lemma OnlyAReleaseUnlocks(s0: State, run: seq<Action>, a: Action)
    requires Init(s0)
    requires var s := Run(s0, run); LockGone(s.st, Apply(s, a).st)
    ensures var s := Run(s0, run); exists r :: Releases(s, a, r)
  {
    ReachableIsSafe(s0, run);
    OnlyReleaseEndsLock(Run(s0, run), a);
    hide *;
  }

  // ---------------------------------------------------------------- one recovery at a time

  /** For every source at most one recovery has started, in every reachable state. */
  lemma AtMostOneStarted(s0: State, run: seq<Action>, u: Uid, v: Uid)
    requires Init(s0)
    requires var recs := Run(s0, run).st.recs;
             u in recs && v in recs && recs[u].started && recs[v].started && recs[u].source == recs[v].source
    ensures u == v
  {
    ReachableIsSafe(s0, run);
    hide Run;
    hide RecordsOk;
    hide MarkersOk;
    hide EvidenceOk;
  }

  /** At most one recovery is between its fence and its completion, and it holds the lock. */
  lemma AtMostOneFenced(s0: State, run: seq<Action>, u: Uid, v: Uid, i: Stage, j: Stage)
    requires Init(s0) && i in {InProgress, CommittedFenced} && j in {InProgress, CommittedFenced}
    requires var st := Run(s0, run).st;
             u in st.recs && v in st.recs && StageNow(st, u) == Some(i) && StageNow(st, v) == Some(j)
    ensures var st := Run(s0, run).st; u == v && st.recs[u].started && !IsComplete(st.recs[u]) && LockHeld(st, st.recs[u])
  {
    ReachableIsSafe(s0, run);
    OneFencedRecovery(Run(s0, run).st, u, v, i, j);
    hide Run;
    hide Global;
    hide WorkerOk;
    hide NormalOk;
  }

  // ---------------------------------------------------------------- ownership

  /** Every change of the owner of an existing UAMI is authorised by one started recovery whose
      source and target it matches, under that recovery's fence and lock, on the very identity its plan
      recorded. */
  lemma OwnershipIsAnAuthorisedChain(s0: State, run: seq<Action>, a: Action)
    requires Init(s0)
    requires var s := Run(s0, run); s.st.uami.Some? && Apply(s, a).st.uami.Some? && OwnerOf(Apply(s, a).st) != OwnerOf(s.st)
    ensures var s := Run(s0, run); a.WorkerCall? && s.worker.Busy? && s.worker.at.CommitPut? && s.worker.u in s.st.recs
    ensures var s, s' := Run(s0, run), Apply(Run(s0, run), a);
            var r := s.st.recs[s.worker.u];
            r.started && OwnerOf(s.st) == r.source && OwnerOf(s'.st) == r.target && FenceOf(s.st) == r.uid && FenceOf(s'.st) == r.uid &&
            LockHeld(s.st, r) && r.plan.Some?
    ensures var s := Run(s0, run);
            var u, plan := s.st.uami.value, s.st.recs[s.worker.u].plan.value;
            EqualFold(u.id, plan.id) && u.clientId == plan.clientId && u.principalId == plan.principalId && u.tenantId == plan.tenantId
  {
    ReachableIsSafe(s0, run);
    OwnershipChain(Run(s0, run), a);
    hide Run;
    hide Init;
    hide Apply;
    hide Inv;
    hide EqualFold;
    hide LockHeld;
  }

  /** The fence of u rises only with its own MarkInProgress and falls only with its own Finalize,
      after its commit is on record. */
  lemma FenceRisesAndFallsWithItsRecovery(s0: State, run: seq<Action>, a: Action, u: Uid)
    requires Init(s0) && u != ""
    requires var s := Run(s0, run); (FenceOf(s.st) == u) != (FenceOf(Apply(s, a).st) == u)
    ensures var s := Run(s0, run); a.WorkerCall? && s.worker.Busy? && s.worker.u == u && u in s.st.recs
    ensures var s := Run(s0, run); FenceOf(s.st) != u ==> s.worker.at.MarkPut? && FenceOf(s.st) == ""
    ensures var s := Run(s0, run); FenceOf(s.st) == u ==> s.worker.at.FinalizePut? && s.st.recs[u].commitVerified
  {
    ReachableIsSafe(s0, run);
    FenceInterval(Run(s0, run), a, u);
    hide *;
  }

  /** Commit is durable before the fence falls, and stage Complete implies every checkpoint. */
  lemma CommitBeforeFenceFalls(s0: State, run: seq<Action>, u: Uid)
    requires Init(s0) && u in Run(s0, run).st.recs
    ensures var st := Run(s0, run).st;
            st.recs[u].started && !st.recs[u].commitVerified && st.recs[u].target in st.local && OwnerOf(st) == st.recs[u].target ==>
              st.uami.Some? && FenceOf(st) == u && FenceTarget(st.uami.value) == st.recs[u].target
    ensures var st := Run(s0, run).st;
            StageNow(st, u) == Some(Complete) ==> st.recs[u].commitVerified && st.recs[u].started && st.recs[u].plan.Some?
  {
    ReachableIsSafe(s0, run);
    var st := Run(s0, run).st;
    hide Run;
    hide Init;
    if StageNow(st, u) == Some(Complete) {
      CompleteStageImpliesCheckpoints(st, u);
    }
    hide StageNow;
    if st.recs[u].started && !st.recs[u].commitVerified && st.recs[u].target in st.local && OwnerOf(st) == st.recs[u].target {
      CommitIsDurableFirst(st, u);
    }
    hide Global;
    hide WorkerOk;
    hide NormalOk;
  }

  // ---------------------------------------------------------------- the status never reverts

  /** A recovery that is gone stays gone: its UID is spent. */
  lemma GoneStaysGone(s: State, a: Action, u: Uid)
    requires u in s.st.used && u !in s.st.recs
    ensures u !in Apply(s, a).st.recs && u in Apply(s, a).st.used
  {
    match a
    case WorkerCall(c) => WorkerLeavesUsed(s, c, u); hide StepWorker;
    case NormalCall(c) => NormalLeavesRecords(s, c); NormalLeavesUsed(s, c); hide StepNormal;
    case _ => hide Enter; hide NormalEnter;
  }

  lemma WorkerLeavesUsed(s: State, c: Choice, u: Uid)
    ensures StepWorker(s, c).st.used == s.st.used
    ensures u !in s.st.recs ==> u !in StepWorker(s, c).st.recs
  {
    hide Read;
    hide AfterWrite;
    hide PatchTarget;
    hide Transferred;
    hide Upsert;
    hide PatchConds;
  }

  lemma NormalLeavesUsed(s: State, c: Choice)
    ensures StepNormal(s, c).st.used == s.st.used
  {
    hide NormalRead;
    hide AfterNormalWrite;
    hide ApplyWiPatch;
    hide Upsert;
  }

  /** Somewhere on the way the recovery was complete. */
  ghost predicate WasComplete(s: State, more: seq<Action>, u: Uid) {
    exists k :: 0 <= k < |more| && CompleteAt(s, more, u, k)
  }

  ghost predicate CompleteAt(s: State, more: seq<Action>, u: Uid, k: nat)
    requires k <= |more|
  {
    var r := Run(s, more[..k]).st.recs; u in r && IsComplete(r[u])
  }

  /** Across any further run, MutationStarted, CommitVerified, Complete and Failed stay set and the
      plan stays the one captured at preflight; a started recovery leaves only after completion. */
  lemma {:induction false} StatusNeverReverts(s: State, more: seq<Action>, u: Uid)
    requires Inv(s) && u in s.st.recs
    ensures var s' := Run(s, more);
            Inv(s') &&
            if u in s'.st.recs then MovesForward(s.st.recs[u], s'.st.recs[u])
            else u in s'.st.used && (s.st.recs[u].started ==> WasComplete(s, more, u))
    decreases |more|
  {
    hide Inv;
    hide Apply;
    hide CondTrue;
    if more == [] {
      assert MovesForward(s.st.recs[u], s.st.recs[u]);
    } else {
      var n := |more| - 1;
      StatusNeverReverts(s, more[..n], u);
      var s1 := Run(s, more[..n]);
      ActionKeeps(s1, more[n]);
      if u in s1.st.recs {
        StatusIsForwardOnly(s1, more[n], u);
        KnownUid(s1, u);
        UsedGrows(s1, more[n]);
        if s.st.recs[u].started && u !in Apply(s1, more[n]).st.recs {
          assert CompleteAt(s, more, u, n);
        }
      } else {
        GoneStaysGone(s1, more[n], u);
        if s.st.recs[u].started {
          var k :| 0 <= k < n && CompleteAt(s, more[..n], u, k);
          assert more[..n][..k] == more[..k];
          assert CompleteAt(s, more, u, k);
        }
      }
    }
  }

  lemma KnownUid(s: State, u: Uid)
    requires Inv(s) && u in s.st.recs
    ensures u in s.st.used
  {
  }

  lemma UsedGrows(s: State, a: Action)
    ensures s.st.used <= Apply(s, a).st.used
  {
    match a
    case WorkerCall(c) => WorkerLeavesUsed(s, c, ""); hide StepWorker;
    case NormalCall(c) => NormalLeavesUsed(s, c); hide StepNormal;
    case _ => hide Enter; hide NormalEnter;
  }

  /** The shape of every status: exactly one of the four conditions is True once a patch has
      landed, Failed excludes MutationStarted, and every checkpoint implies the earlier ones. */
  lemma EveryStatusIsWellShaped(s0: State, run: seq<Action>, u: Uid)
    requires Init(s0) && u in Run(s0, run).st.recs
    ensures var r := Run(s0, run).st.recs[u];
            (r.conds == map[] || exists t :: CondTrue(r.conds, t) && forall t' | CondTrue(r.conds, t') :: t' == t) &&
            (IsFailed(r) ==> !r.started) && (IsComplete(r) ==> r.commitVerified) && (r.commitVerified ==> r.started) &&
            (r.started ==> r.plan.Some? && r.finalizer)
  {
    ReachableIsSafe(s0, run);
    var r := Run(s0, run).st.recs[u];
    assert RecoveryOk(r);
    OneCondition(r.conds);
    hide Run;
    hide Inv;
    hide Init;
    hide CondsOk;
  }

  lemma OneCondition(c: Conds)
    requires CondsOk(c)
    ensures c == map[] || exists t :: CondTrue(c, t) && forall t' | CondTrue(c, t') :: t' == t
  {
    if c != map[] {
      var t := if CondTrue(c, Progressing) then Progressing else if CondTrue(c, Blocked) then Blocked
               else if CondTrue(c, Completed) then Completed else Failed;
      assert CondTrue(c, t);
      forall t' | CondTrue(c, t')
        ensures t' == t
      {
        match t'
        case Progressing =>
        case Blocked =>
        case Completed =>
        case Failed =>
      }
    }
  }

  // ---------------------------------------------------------------- plan fidelity

  lemma CredentialsChangeOnlyAt(s: State, c: Choice)
    requires StepWorker(s, c).st.fics != s.st.fics
    ensures s.worker.Busy? && s.worker.u in s.st.recs && s.worker.at.FicPut? && s.st.recs[s.worker.u].plan.Some?
    ensures StepWorker(s, c).st.fics ==
              Upsert(s.st.uamiId, s.worker.at.t.ficName, s.st.recs[s.worker.u].plan.value.tuple, s.st.fics)
  {
    hide Read;
    hide AfterWrite;
    hide PatchTarget;
    hide Transferred;
    hide Upsert;
    hide PatchConds;
  }

  /** A credential that a recovery writes carries the tuple captured at preflight, however long ago
      that was and whatever the issuer answers now; the other credentials are not touched. */
  lemma CredentialsFollowThePlan(s0: State, run: seq<Action>, more: seq<Action>, c: Choice, u: Uid)
    requires Init(s0) && u in Run(s0, run).st.recs && Run(s0, run).st.recs[u].plan.Some?
    requires var s := Run(Run(s0, run), more); s.worker.Busy? && s.worker.u == u && Apply(s, WorkerCall(c)).st.fics != s.st.fics
    ensures var s, s' := Run(Run(s0, run), more), Apply(Run(Run(s0, run), more), WorkerCall(c));
            var name, tuple := s.worker.at.t.ficName, Run(s0, run).st.recs[u].plan.value.tuple;
            FindFic(name, s'.st.fics).Some? && FindFic(name, s'.st.fics).value.tuple == Some(tuple) &&
            forall other: string | !EqualFold(other, name) :: FindFic(other, s'.st.fics) == FindFic(other, s.st.fics)
  {
    ReachableIsSafe(s0, run);
    StatusNeverReverts(Run(s0, run), more, u);
    var s := Run(Run(s0, run), more);
    CredentialsChangeOnlyAt(s, c);
    UpsertThenFind(s.st.uamiId, s.worker.at.t.ficName, Run(s0, run).st.recs[u].plan.value.tuple, s.st.fics);
    hide Run;
    hide Inv;
    hide Init;
    hide StepWorker;
    hide FindFic;
    hide Upsert;
    hide EqualFold;
    hide CondTrue;
  }
}
