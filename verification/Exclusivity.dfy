/** What the fence's exclusion costs: nobody else may delete the UAMI.

    The documentation asks that no other writer creates or changes the resource, and outsiders of the
    transition system never delete it. Were it deleted at a bad moment, the exclusion of
    FenceTheorems would fail, from a state that is reached. */
module Exclusivity {
  import opened OwnershipTags
  import opened Azure
  import opened Resources
  import opened Target
  import opened ServiceAccounts
  import opened Protocol
  import opened Invariant
  import opened Convergence
  import opened Passes
  import opened Handover
  import opened Runs
  import opened ConvergenceTheorems
  import opened FenceTheorems
  import opened Stranding
  import Stuck

  /** The recovery u is about to put its fence on tags it has read, and a normal reconcile that read the
      target before it was locked is about to look for the UAMI. */
  ghost predicate Crossed(s: State, u: Uid) {
    Inv(s) && s.worker.Busy? && s.worker.u == u && u in s.st.recs && s.worker.at.MarkPut? &&
    s.normal.NBusy? && s.normal.at.NEnsure? &&
    !(s.normal.w.recorded.Some? && EqualFold(s.normal.w.recorded.value, s.st.uamiId))
  }

  /** Somebody deletes the UAMI, and its credentials with it. */
  function WithoutUami(s: State): State { s.(st := s.st.(uami := None, fics := [])) }

  ghost function CrossingCalls(c: Choice): seq<Action> {
    [NormalCall(c)] + ([NormalCall(c)] + ([WorkerCall(c)] + ([NormalCall(c)] + [])))
  }

  /** With the UAMI deleted there, the normal reconcile creates it anew, the recovery fences the new one,
      and the normal reconcile goes on to write a credential under that fence. */
  lemma DeletionBreaksExclusion(s: State, u: Uid, c: Choice)
    requires Crossed(s, u) && !c.fails
    ensures !AboutToMutate(s.normal)
    ensures var s' := Run(WithoutUami(s), CrossingCalls(c));
            Fenced(s'.st) && AboutToMutate(s'.normal) && Apply(s', NormalCall(c)).st.fics != s'.st.fics
  {
    hide Run;
    hide Apply;
    var s0 := WithoutUami(s);
    var s1 := NothingFound(s, u, c);
    var s2 := CreatedAnew(s1, c);
    var s3 := FencedAnew(s2, u, c);
    var s4 := PutPending(s3, c);
    RunFirst(s0, NormalCall(c), [NormalCall(c)] + ([WorkerCall(c)] + ([NormalCall(c)] + [])));
    RunFirst(s1, NormalCall(c), [WorkerCall(c)] + ([NormalCall(c)] + []));
    RunFirst(s2, WorkerCall(c), [NormalCall(c)] + []);
    RunFirst(s3, NormalCall(c), []);
    RunNothing(s4);
  }

  lemma RunNothing(s: State)
    ensures Run(s, []) == s
  {
    hide Apply;
  }

  /** The recovery still is about to put its fence. */
  predicate AboutToFence(s: State, u: Uid) {
    u != "" && s.worker.Busy? && s.worker.u == u && u in s.st.recs && s.st.recs[u].uid == u && s.worker.at.MarkPut?
  }

  lemma NothingFound(s: State, u: Uid, c: Choice) returns (s': State)
    requires Crossed(s, u) && !c.fails
    ensures s' == Apply(WithoutUami(s), NormalCall(c)) && AboutToFence(s', u) && !AboutToMutate(s.normal)
    ensures s'.normal.NBusy? && s'.normal.at.NCreate? && s'.st.uami.None? && s'.st.fics == []
  {
    assert RecoveryOk(s.st.recs[u]) && s.st.recs[u].uid == u;
    hide Inv;
    hide Classify;
    s' := Apply(WithoutUami(s), NormalCall(c));
  }

  lemma CreatedAnew(s: State, c: Choice) returns (s': State)
    requires s.normal.NBusy? && s.normal.at.NCreate? && s.st.uami.None? && !c.fails
    ensures s' == Apply(s, NormalCall(c)) && s'.worker == s.worker && s'.st == s.st.(uami := s'.st.uami, fics := [])
    ensures s'.normal.NBusy? && s'.normal.at.NFicGet? && s'.st.uami.Some?
  {
    hide WorkloadIdentityTags;
    s' := Apply(s, NormalCall(c));
  }

  lemma FencedAnew(s: State, u: Uid, c: Choice) returns (s': State)
    requires AboutToFence(s, u) && s.st.uami.Some?
    ensures s' == Apply(s, WorkerCall(c)) && Fenced(s'.st) && s'.normal == s.normal && s'.st == s.st.(uami := s'.st.uami)
  {
    hide AfterWrite;
    s' := Apply(s, WorkerCall(c));
    assert Fence(s'.st.uami.value) == u;
  }

  /** No credential is found, so one is about to be written, and it would be. */
  lemma PutPending(s: State, c: Choice) returns (s': State)
    requires s.normal.NBusy? && s.normal.at.NFicGet? && s.st.uami.Some? && s.st.fics == [] && !c.fails
    ensures s' == Apply(s, NormalCall(c)) && s'.st == s.st && AboutToMutate(s'.normal)
    ensures Apply(s', NormalCall(c)).st.fics != s'.st.fics
  {
    s' := Apply(s, NormalCall(c));
  }

  // ---------------------------------------------------------------- such a state is reached

  /** Two calls into a normal reconcile, then the reconcile that starts the recovery, then two calls into
      the one that fences the UAMI. */
  ghost function Crossing(u: Uid, c: Choice): seq<Action> {
    ([NormalBegin] + NormalReconcileCalls(c, 2)) + (RecoveryReconcile(u, c) + ([WorkerBegin(u, c)] + WorkerCalls(c, 2)))
  }

  ghost function CrossingRun(): seq<Action> {
    Setup() + (RecoveryReconcile("R", CALM) + (RecoveryReconcile("R", CALM) + Crossing("R", CALM)))
  }

  /** A normal reconcile of the target would reach Azure. */
  ghost predicate Reaching(st: Store) {
    st.wi.Some? && !st.wi.value.deleting && st.wi.value.finalizer && !LockedWi(st.wi.value) &&
    st.wi.value.recorded.None? && Inspect(st.wi.value, st.sa).Inspected?
  }

  lemma ReachesEnsure(s: State, c: Choice) returns (s': State)
    requires Reaching(s.st) && s.normal.NIdle? && Calm(c)
    ensures s' == Run(s, [NormalBegin] + NormalReconcileCalls(c, 2)) && s' == s.(normal := s'.normal)
    ensures s'.normal.NBusy? && s'.normal.at.NEnsure? && s'.normal.w == s.st.wi.value
  {
    hide NormalCalls;
    hide Inspect;
    var w, url := s.st.wi.value, c.issuer.value;
    RunFirst(s, NormalBegin, NormalReconcileCalls(c, 2));
    var s0 := Apply(s, NormalBegin);
    NormalCallsAreRun(s0, c, 2);
    NormalReadCall(s.st, w, NIssuer, c, 2);
    NormalReadCall(s.st, w, NInspect(url), c, 1);
    NoMoreNormalCalls(s.st, NormalRead(s.st, w, NInspect(url), c), c);
    hide Run;
    s' := s.(normal := NormalRead(s.st, w, NInspect(url), c));
  }

  lemma ReachesMarkPut(s: State, u: Uid, c: Choice) returns (s': State)
    requires Kept(s) && s.worker.Idle? && Environment(s.st, u, c) && s.st.recs[u].started && !s.st.recs[u].commitVerified
    requires StageNow(s.st, u) == Some(NotStarted)
    ensures s' == Run(s, [WorkerBegin(u, c)] + WorkerCalls(c, 2)) && s' == s.(worker := s'.worker)
    ensures s'.worker.Busy? && s'.worker.u == u && s'.worker.at.MarkPut?
  {
    PlacedNow(s, u, c);
    MarkCalls(s.st, u, c);
    hide Environment;
    hide Kept;
    hide WellPlaced;
    RunFirst(s, WorkerBegin(u, c), WorkerCalls(c, 2));
    hide Run;
    hide Calls;
    hide Enter;
    CallsAreRun(Apply(s, WorkerBegin(u, c)), c, 2);
    s' := s.(worker := Busy(u, false, MarkPut(s.st.wi.value.id, s.st.uami.value.tags)));
  }

  lemma MarkCalls(st: Store, u: Uid, c: Choice)
    requires WellPlaced(st, u, c) && st.recs[u].started && !st.recs[u].commitVerified && StageNow(st, u) == Some(NotStarted)
    ensures st.wi.Some? && st.uami.Some? && u in st.recs
    ensures Calls(st, Enter(st.recs[u], c.configured), c, 2) ==
              Position(st, Busy(u, false, MarkPut(st.wi.value.id, st.uami.value.tags)))
  {
    hide Calls;
    PlacedFacts(st, u, c);
    IsGoing(st, u, c);
    LockedTargetIsValid(st, u);
    StageIs(st, u, NotStarted);
    hide WellPlaced;
    hide Going;
    hide Validate;
    hide StageOf;
    ReadCall(st, u, false, ReadTarget, c, 2);
    ReadCall(st, u, false, MarkGet(st.wi.value.id), c, 1);
    NoMoreCalls(st, Busy(u, false, MarkPut(st.wi.value.id, st.uami.value.tags)), c);
  }

  lemma CrossesFrom(s: State, u: Uid, c: Choice)
    requires Kept(s) && s.worker.Idle? && s.normal.NIdle? && Environment(s.st, u, c) && Remaining(s.st, u) == 4
    requires s.st.recs[u].finalizer && s.st.recs[u].plan.Some? && !s.st.recs[u].started && Reaching(s.st) && Calm(c)
    ensures Crossed(Run(s, Crossing(u, c)), u)
  {
    hide Environment;
    hide Kept;
    hide Run;
    hide WellPlaced;
    hide RecoveryReconcile;
    hide Calls;
    hide Inspect;
    EnvironmentFacts(s.st, u, c);
    PlacedNow(s, u, c);
    var s1 := ReachesEnsure(s, c);
    RunKeeps(s, [NormalBegin] + NormalReconcileCalls(c, 2));
    var st2 := StartPass(s.st, u, c);
    var s2 := Reconcile(s1, u, c, st2);
    EnvironmentFacts(st2, u, c);
    NotYetMarked(s.st, u, c);
    var s3 := ReachesMarkPut(s2, u, c);
    RunKeeps(s2, [WorkerBegin(u, c)] + WorkerCalls(c, 2));
    RunAppend(s, [NormalBegin] + NormalReconcileCalls(c, 2), RecoveryReconcile(u, c) + ([WorkerBegin(u, c)] + WorkerCalls(c, 2)));
    RunAppend(s1, RecoveryReconcile(u, c), [WorkerBegin(u, c)] + WorkerCalls(c, 2));
    Stuck.KeptIsInv(s3);
  }

  lemma NotYetMarked(st: Store, u: Uid, c: Choice)
    requires WellPlaced(st, u, c) && !st.recs[u].started
    ensures StageNow(st, u) == Some(NotStarted)
  {
    PlacedFacts(st, u, c);
    ImpliedStage(st, u);
    hide Global;
    hide CommitKept;
    hide Environment;
  }

  /** The deletion of the UAMI by anybody else, at a state the system reaches, would break the exclusion. */
  lemma CrossingIsReachable()
    ensures Init(Installed()) && Crossed(Run(Installed(), CrossingRun()), "R")
    ensures var s' := Run(WithoutUami(Run(Installed(), CrossingRun())), CrossingCalls(CALM));
            Fenced(s'.st) && AboutToMutate(s'.normal)
  {
    hide Environment;
    hide Calls;
    hide Apply;
    hide Crossing;
    hide Kept;
    hide WellPlaced;
    hide Crossed;
    InstalledIsInit();
    SetupCreates();
    CreatedEnvironment();
    ReachableIsKept(Installed(), Setup());
    CreatedReaches();
    var s := Stranding.Created();
    hide Stranding.Created;
    hide Installed;
    hide RecoveryReconcile;
    hide Setup;
    hide CrossingCalls;
    RunAppend(Installed(), Setup(), RecoveryReconcile("R", CALM) + (RecoveryReconcile("R", CALM) + Crossing("R", CALM)));
    CrossesFromCreated(s, "R", CALM);
    DeletionBreaksExclusion(Run(Installed(), CrossingRun()), "R", CALM);
  }

  lemma CreatedReaches()
    ensures Reaching(Stranding.Created().st)
  {
  }

  lemma CrossesFromCreated(s: State, u: Uid, c: Choice)
    requires Kept(s) && s.worker.Idle? && s.normal.NIdle? && Environment(s.st, u, c) && Remaining(s.st, u) == 6
    requires Reaching(s.st) && Calm(c)
    ensures Crossed(Run(s, RecoveryReconcile(u, c) + (RecoveryReconcile(u, c) + Crossing(u, c))), u)
  {
    hide Environment;
    hide Kept;
    hide Run;
    hide WellPlaced;
    hide RecoveryReconcile;
    hide Crossing;
    hide Calls;
    hide Inspect;
    EnvironmentFacts(s.st, u, c);
    PlacedNow(s, u, c);
    var st1 := FinalizerPass(s.st, u, c);
    var s1 := Reconcile(s, u, c, st1);
    EnvironmentFacts(st1, u, c);
    PlacedNow(s1, u, c);
    var st2 := PreflightPass(st1, u, c);
    var s2 := Reconcile(s1, u, c, st2);
    EnvironmentFacts(st2, u, c);
    RunAppend(s, RecoveryReconcile(u, c), RecoveryReconcile(u, c) + Crossing(u, c));
    RunAppend(s1, RecoveryReconcile(u, c), Crossing(u, c));
    CrossesFrom(s2, u, c);
  }
}
