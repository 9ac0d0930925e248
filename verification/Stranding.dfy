/** A concrete run from a fresh installation to a stranded recovery. */
module Stranding {
  import opened OwnershipTags
  import opened Azure
  import opened Resources
  import opened ServiceAccounts
  import opened Protocol
  import opened Convergence
  import opened Passes
  import opened Handover
  import opened Runs
  import opened ConvergenceTheorems
  import opened Stuck
  import Election

  const KEY := Key("team", "api")
  const TARGET := Ident("B", KEY, "api", "api")
  const RECOVERY := Recovery("R", "recover-api", 0, "A", KEY, "B", false, false, false, false, None, map[])
  const CALM := Choice(Some("https://issuer"), true, false, "U", "client", "principal", "tenant", OutcomeInvalid)

  /** The retained UAMI of instance "A" of team/api. */
  function RetainedTags(): Tags {
    OperatorOwnershipTags("A", true)[LogicalKeyTag := LogicalKey(KEY)]
  }

  function Retained(): Uami { Uami("id", "client", "principal", "tenant", RetainedTags()) }

  function Installed(): State {
    State(Store("id", Some(Retained()), [], None, None, map[], 0, {"A"}, {}), Idle, NIdle)
  }

  lemma InstalledIsInit()
    ensures Init(Installed())
  {
  }

  /** Instance "B" of team/api, published as RecoveryRequired by its first reconcile. */
  function Published(st: Store): Store {
    st.(wi := Some(Wi(TARGET, 2, 1, false, true, false, Some("A"), Some(Ready(StatusFalse, ReasonRecoveryRequired, 1)), "", "", None, None)),
        clock := 3)
  }

  lemma RetainedNeedsRecovery()
    ensures Classify(TARGET, Retained()) == RecoveryRequired("A")
    ensures BaseOwnership(KEY, RetainedTags())
  {
    assert HasTags(RetainedTags(), OperatorOwnershipTags("A", true));
  }

  /** The instance once its first reconcile has put the finalizer on it. */
  function Finalized(st: Store): Store {
    st.(wi := Some(Wi(TARGET, 1, 1, false, true, false, None, None, "", "", None, None)), clock := 2)
  }

  lemma FirstReconcilePublishes(st: Store)
    requires st.uami == Some(Retained()) && st.sa == None && st.clock == 1 &&
             st.wi == Some(FreshWi(st.(clock := 0), TARGET, false))
    ensures NormalCalls(st, NormalEnter(st.wi.value), CALM, NORMAL_CALLS) == NormalPosition(Published(st), NIdle)
  {
    hide NormalCalls;
    hide Retained;
    NormalWriteCall(st, st.wi.value, NAddFinalizer, CALM, 10);
    hide NormalEnter;
    FinalizedPublishes(Finalized(st), st);
  }

  lemma FinalizedPublishes(st1: Store, st: Store)
    requires st1 == Finalized(st) && st.uami == Some(Retained()) && st.sa == None
    ensures NormalCalls(st1, NBusy(st1.wi.value, NIssuer), CALM, 9) == NormalPosition(Published(st), NIdle)
  {
    hide NormalCalls;
    hide Classify;
    hide RetainedTags;
    RetainedNeedsRecovery();
    var url, w := CALM.issuer.value, st1.wi.value;
    NormalReadCall(st1, w, NIssuer, CALM, 9);
    NormalReadCall(st1, w, NInspect(url), CALM, 8);
    NormalReadCall(st1, w, NEnsure(NotEstablished, url), CALM, 7);
    NormalWriteCall(st1, w, NStatus(RequiredPatch("A")), CALM, 6);
    NormalIdleStays(Published(st), CALM, 5);
  }

  /** The state with the recovery created over the published target. */
  function Created(): State {
    var st := Published(Installed().st.(used := {"A", "B"}, local := {"B"}));
    State(st.(recs := map["R" := RECOVERY], used := {"A", "B"} + {"R", "A", "B"}), Idle, NIdle)
  }

  ghost function Setup(): seq<Action> {
    [CreateWi(TARGET, false)] + (NormalReconcile(CALM) + [CreateRecovery(RECOVERY)])
  }

  lemma SetupCreates()
    ensures Run(Installed(), Setup()) == Created()
  {
    hide Retained;
    hide NormalEnter;
    hide NormalReconcileCalls;
    hide NormalCalls;
    var s1 := Apply(Installed(), CreateWi(TARGET, false));
    RunFirst(Installed(), CreateWi(TARGET, false), NormalReconcile(CALM) + [CreateRecovery(RECOVERY)]);
    RunAppend(s1, NormalReconcile(CALM), [CreateRecovery(RECOVERY)]);
    NormalReconcileIsRun(s1, CALM);
    FirstReconcilePublishes(s1.st);
    var s2 := Run(s1, NormalReconcile(CALM));
    hide NormalReconcile;
    RunFirst(s2, CreateRecovery(RECOVERY), []);
    assert [CreateRecovery(RECOVERY)] + [] == [CreateRecovery(RECOVERY)];
    hide Run;
  }

  lemma CreatedIsElected()
    ensures Elected(Created().st.recs, "R")
  {
    hide Published;
    var recs := Created().st.recs;
    assert recs == map["R" := RECOVERY];
    assert "R" in recs && recs["R"] in recs.Values;
    forall r | r in recs.Values
      ensures r == RECOVERY
    {
    }
    Election.PrecedesIsStrictTotalOrder(RECOVERY, RECOVERY, RECOVERY);
  }

  lemma CreatedEnvironment()
    ensures Environment(Created().st, "R", CALM)
    ensures Remaining(Created().st, "R") == 6
  {
    hide RetainedTags;
    hide Elected;
    CreatedIsElected();
    RetainedNeedsRecovery();
    RetainedMarkers();
  }

  lemma RetainedMarkers()
    ensures Owner(Retained()) == "A" && Unfenced(Retained()) && LastRecovery(Retained()) == ""
  {
  }

  /** The run: publish, create the recovery, add the finalizer, preflight, and the race. */
  ghost function StrandingRun(): seq<Action> {
    Setup() + (RecoveryReconcile("R", CALM) + (RecoveryReconcile("R", CALM) + FailedReadRace("R", CALM)))
  }

  /** There is a reachable state whose recovery has started and will never complete, whatever
      anybody does afterwards. */
  lemma StrandingIsReachable(more: seq<Action>)
    ensures Init(Installed())
    ensures var s := Run(Installed(), StrandingRun());
            Stranded(s.st, "R") && Stranded(Run(s, more).st, "R") && !IsComplete(Run(s, more).st.recs["R"])
  {
    hide Environment;
    hide Calls;
    hide Apply;
    hide FailedReadRace;
    hide Kept;
    hide WellPlaced;
    InstalledIsInit();
    SetupCreates();
    CreatedEnvironment();
    ReachableIsKept(Installed(), Setup());
    var s := Created();
    hide Created;
    hide Installed;
    hide RecoveryReconcile;
    hide Setup;
    var rest := RecoveryReconcile("R", CALM) + (RecoveryReconcile("R", CALM) + FailedReadRace("R", CALM));
    RunAppend(Installed(), Setup(), rest);
    StrandsFrom(s, "R", CALM, more);
  }

  lemma StrandsFrom(s: State, u: Uid, c: Choice, more: seq<Action>)
    requires Kept(s) && s.worker.Idle? && s.normal.NIdle? && Environment(s.st, u, c) && Remaining(s.st, u) == 6 &&
             !LockedWi(s.st.wi.value)
    ensures var s' := Run(s, RecoveryReconcile(u, c) + (RecoveryReconcile(u, c) + FailedReadRace(u, c)));
            Stranded(s'.st, u) && Stranded(Run(s', more).st, u) && !IsComplete(Run(s', more).st.recs[u])
  {
    hide Environment;
    hide Kept;
    hide Run;
    hide WellPlaced;
    hide RecoveryReconcile;
    hide FailedReadRace;
    hide Stranded;
    hide Calls;
    EnvironmentFacts(s.st, u, c);
    PlacedNow(s, u, c);
    var st1 := FinalizerPass(s.st, u, c);
    var s1 := Reconcile(s, u, c, st1);
    EnvironmentFacts(st1, u, c);
    PlacedNow(s1, u, c);
    var st2 := PreflightPass(st1, u, c);
    var s2 := Reconcile(s1, u, c, st2);
    EnvironmentFacts(st2, u, c);
    RunAppend(s, RecoveryReconcile(u, c), RecoveryReconcile(u, c) + FailedReadRace(u, c));
    RunAppend(s1, RecoveryReconcile(u, c), FailedReadRace(u, c));
    assert AboutToStart(s2, u, c);
    hide AboutToStart;
    RaceStrands(s2, u, c, more);
  }

  lemma Reconcile(s: State, u: Uid, c: Choice, st': Store) returns (s': State)
    requires Kept(s) && s.worker.Idle? && u in s.st.recs && Reconciled(s.st, u, c) == Position(st', Idle)
    ensures s' == Run(s, RecoveryReconcile(u, c)) == State(st', Idle, s.normal) && Kept(s')
  {
    hide Kept;
    hide Run;
    hide RecoveryReconcile;
    hide Calls;
    ReconcileIsRun(s, u, c);
    RunKeeps(s, RecoveryReconcile(u, c));
    s' := State(st', Idle, s.normal);
  }
}
