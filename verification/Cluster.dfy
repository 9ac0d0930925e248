/** The stores as one mutable object, and the API calls of the recovery controller on it.

    Before every call anybody else may act any number of times. Every call is one action of the
    transition system: `log` is the run so far, and the object's fields are always the state
    that run leads to. A call that fails, or a process that dies, ends the reconcile. As long as
    nobody else acts and no call fails, the trace is quiet and the state is exactly what the
    calls made since it began compute. */
module Cluster {
  import opened OwnershipTags
  import opened Azure
  import opened Resources
  import opened Target
  import opened ServiceAccounts
  import opened Protocol
  import opened Invariant
  import opened Safety
  import opened FenceTheorems
  import opened LockTheorems
  import opened Convergence
  import Election
  import RecoveryStatus

  /** Two versions of a record between which only a deletion may have been requested. */
  predicate SameButDeleting(r: Recovery, now: Recovery) {
    now == r.(deleting := now.deleting) && (r.deleting ==> now.deleting)
  }

  lemma OthersKeepRecord(s: State, a: Action, r: Recovery)
    requires !IsWorkerAction(a) && r.uid in s.st.used
    requires r.uid in s.st.recs && SameButDeleting(r, s.st.recs[r.uid]) && r.finalizer
    ensures r.uid in Apply(s, a).st.recs && SameButDeleting(r, Apply(s, a).st.recs[r.uid]) &&
            r.uid in Apply(s, a).st.used
    ensures Apply(s, a).worker == s.worker
  {
    match a
    case NormalCall(c) =>
      NormalLeavesRecords(s, c);
      hide NormalRead;
      hide AfterNormalWrite;
      hide ApplyWiPatch;
      hide Upsert;
    case _ =>
      hide NormalEnter;
      hide StepNormal;
      hide StepWorker;
  }

  lemma OthersKeepWorker(s: State, a: Action)
    requires !IsWorkerAction(a)
    ensures Apply(s, a).worker == s.worker && Apply(s, a).st.uamiId == s.st.uamiId
  {
    hide NormalEnter;
    hide NormalRead;
    hide AfterNormalWrite;
    hide ApplyWiPatch;
    hide Upsert;
    hide StepWorker;
  }

  /** Each tag write is followed by its verification. */
  function VerifyOf(at: At): At
    requires at.MarkPut? || at.CommitPut? || at.FinalizePut?
  {
    match at
    case MarkPut(t, _) => MarkVerify(t)
    case CommitPut(t, _) => CommitVerify(t)
    case FinalizePut(t, _) => FinalizeVerify(t)
  }

  lemma SameTargetPatch(r: Recovery, now: Recovery, wi: Option<Wi>, fromReasons: set<Reason>, to: Reason, version: nat)
    requires SameButDeleting(r, now)
    ensures PatchTarget(r, wi, fromReasons, to, version) == PatchTarget(now, wi, fromReasons, to, version)
  {
  }

  lemma SamePatch(r: Recovery, now: Recovery, patch: StatusPatch)
    requires SameButDeleting(r, now)
    ensures SameButDeleting(ApplyPatch(r, patch), ApplyPatch(now, patch))
    ensures ApplyPatch(r, patch).uid == r.uid && ApplyPatch(r, patch).finalizer == r.finalizer
  {
    hide PatchConds;
  }

  lemma RecordsAppend(list: seq<Recovery>, r: Recovery)
    ensures Election.Records(list + [r]) == Election.Records(list) + {r}
  {
  }

  /** For calls whose answer the stores determine. */
  const NOTHING := Choice(None, false, false, "", "", "", "", OutcomeInvalid)

  lemma RunOne(start: State, log: seq<Action>, a: Action)
    ensures Run(start, log + [a]) == Apply(Run(start, log), a)
  {
    hide Apply;
    assert (log + [a])[..|log|] == log;
  }

  /** n calls and then m more. */
  lemma {:induction false} CallsCompose(st: Store, w: Worker, c: Choice, n: nat, m: nat)
    ensures var p := Calls(st, w, c, n); Calls(st, w, c, n + m) == Calls(p.st, p.worker, c, m)
    decreases n
  {
    hide Read;
    hide Write;
    hide AfterWrite;
    if n > 0 {
      if w.Idle? || w.u !in st.recs {
        CallsCompose(st, Idle, c, n - 1, m);
      } else if IsWrite(w.at) {
        CallsCompose(Write(st, w.u, w.at), AfterWrite(st, w.u, w.deletion, w.at), c, n - 1, m);
      } else {
        CallsCompose(st, Read(st, w.u, w.deletion, w.at, c), c, n - 1, m);
      }
    }
  }

  /** What is known of a program's recent past: nothing, or that since a state reached after `since`
      actions nobody interfered and no call failed. */
  datatype Trace = Disturbed | Quiet(begun: State, since: nat)

  /** Where a program stood at some point: what it preserves is measured from here. */
  datatype Mark = Mark(log: seq<Action>, trace: Trace, answer: Choice)

  /** In a quiet trace the run is made of the worker's calls alone, all answered alike, and the state s is
      what they compute. */
  ghost predicate WorkerTraced(trace: Trace, answer: Choice, log: seq<Action>, s: State) {
    trace.Quiet? ==>
      trace.since <= |log| && s.normal == trace.begun.normal &&
      Position(s.st, s.worker) == Calls(trace.begun.st, trace.begun.worker, answer, |log| - trace.since) &&
      forall i | trace.since <= i < |log| :: log[i] == WorkerCall(answer)
  }

  lemma WorkerTraceGrows(trace: Trace, answer: Choice, log: seq<Action>, s: State)
    requires WorkerTraced(trace, answer, log, s)
    ensures WorkerTraced(trace, answer, log + [WorkerCall(answer)], StepWorker(s, answer))
  {
    if trace.Quiet? {
      CallsCompose(trace.begun.st, trace.begun.worker, answer, |log| - trace.since, 1);
      CallIsStep(s, answer);
    }
    hide Calls;
    hide StepWorker;
  }

  /** From s the run went on by calls of the worker alone, all answered by c, and s' is what they compute. */
  ghost predicate Onward(c: Choice, s: State, log: seq<Action>, s': State, later: seq<Action>) {
    log <= later && s'.normal == s.normal && (forall i | |log| <= i < |later| :: later[i] == WorkerCall(c)) &&
    Position(s'.st, s'.worker) == Calls(s.st, s.worker, c, |later| - |log|)
  }

  /** A trace that stayed quiet computes on from wherever it was. */
  lemma QuietOnward(trace: Trace, c: Choice, s: State, log: seq<Action>, s': State, later: seq<Action>)
    requires trace.Quiet? && log <= later && WorkerTraced(trace, c, log, s) && WorkerTraced(trace, c, later, s')
    ensures Onward(c, s, log, s', later)
  {
    CallsCompose(trace.begun.st, trace.begun.worker, c, |log| - trace.since, |later| - |log|);
    hide Calls;
  }

  lemma TraceBegins(s: State, answer: Choice, log: seq<Action>)
    ensures WorkerTraced(Quiet(s, |log|), answer, log, s)
  {
    NoMoreCalls(s.st, s.worker, answer);
  }

  lemma DisturbedIsTraced()
    ensures forall answer, log, s :: WorkerTraced(Disturbed, answer, log, s)
  {
  }

  lemma CallIsStep(s: State, c: Choice)
    ensures var s' := StepWorker(s, c); Calls(s.st, s.worker, c, 1) == Position(s'.st, s'.worker) && s'.normal == s.normal
  {
    hide Read;
    hide Write;
    hide AfterWrite;
    NoMoreCalls(StepWorker(s, c).st, StepWorker(s, c).worker, c);
  }

  class Cluster {
    const uamiId: string
    var uami: Option<Uami>
    var fics: seq<Fic>
    var sa: Option<Sa>
    var wi: Option<Wi>
    var recs: map<Uid, Recovery>
    var clock: nat
    var used: set<Uid>
    var local: set<Uid>
    var worker: Worker
    var normal: Normal
    var answer: Choice            // what the issuer and the API server answer now
    ghost const start: State
    ghost var log: seq<Action>
    ghost var trace: Trace

    constructor (st: Store)
      requires Init(State(st, Idle, NIdle))
      ensures Valid() && Now() == State(st, Idle, NIdle) && log == []
    {
      uamiId, uami, fics, sa, wi := st.uamiId, st.uami, st.fics, st.sa, st.wi;
      recs, clock, used, local := st.recs, st.clock, st.used, st.local;
      worker, normal, answer := Idle, NIdle, NOTHING;
      start, log := State(st, Idle, NIdle), [];
      trace := Disturbed;
    }

    function Stores(): Store
      reads this
    {
      Store(uamiId, uami, fics, sa, wi, recs, clock, used, local)
    }

    function Now(): State
      reads this
    {
      State(Stores(), worker, normal)
    }

    /** The fields are what the run so far leads to from an initial state. */
    ghost predicate Reached()
      reads this
    {
      Init(start) && Now() == Run(start, log)
    }

    ghost predicate Valid()
      reads this
    {
      Reached() && WorkerTraced(trace, answer, log, Now())
    }

    ghost function Sign(): Mark
      reads this
    {
      Mark(log, trace, answer)
    }

    /** The run was extended since m; if the trace is quiet, it is the same one, answered alike. */
    ghost predicate Since(m: Mark)
      reads this
    {
      m.log <= log && (trace.Quiet? ==> trace == m.trace && answer == m.answer)
    }

    /** The stored record of the recovery under reconciliation is the controller's copy, but for a
        deletion requested meanwhile. */
    ghost predicate Holds(r: Recovery)
      reads this
    {
      r.uid in recs && SameButDeleting(r, recs[r.uid]) && r.finalizer && r.uid in used
    }

    method Become(s: State)
      requires s.st.uamiId == uamiId
      modifies this
      ensures Now() == s && log == old(log) && trace == old(trace) && answer == old(answer)
    {
      uami, fics, sa, wi := s.st.uami, s.st.fics, s.st.sa, s.st.wi;
      recs, clock, used, local := s.st.recs, s.st.clock, s.st.used, s.st.local;
      worker, normal := s.worker, s.normal;
    }

    /** From here on the program is watched: the configuration is given, and nothing has happened yet. */
    method Watch(configured: bool)
      requires Reached()
      modifies this`answer, this`trace
      ensures Valid() && trace == Quiet(Now(), |log|) && answer.configured == configured && !answer.fails
    {
      hide Run;
      hide Init;
      hide WorkerTraced;
      answer := answer.(configured := configured, fails := false);
      trace := Quiet(Now(), |log|);
      TraceBegins(Now(), answer, log);
    }

    /** The issuer and the API server may come to answer differently. */
    method ChangeAnswers()
      modifies this`answer, this`trace
      ensures answer.configured == old(answer.configured) && answer.fails == old(answer.fails)
      ensures trace == Disturbed || (trace == old(trace) && answer == old(answer))
    {
      var changes: bool := *;
      if changes {
        var other: Choice := *;
        answer := other.(configured := answer.configured, fails := answer.fails);
        trace := Disturbed;
      }
    }

    /** One action of somebody else. */
    method ForeignAction(a: Action)
      requires Valid() && !IsWorkerAction(a)
      modifies this
      ensures Valid() && worker == old(worker) && log == old(log) + [a] && trace == Disturbed && answer == old(answer)
      ensures forall r: Recovery | old(Holds(r)) :: Holds(r)
    {
      hide Run;
      hide Init;
      hide WorkerTraced;
      hide Apply;
      var s := Now();
      forall r: Recovery | Holds(r)
        ensures r.uid in Apply(s, a).st.recs && SameButDeleting(r, Apply(s, a).st.recs[r.uid]) && r.uid in Apply(s, a).st.used
      {
        OthersKeepRecord(s, a, r);
      }
      OthersKeepWorker(s, a);
      RunOne(start, log, a);
      DisturbedIsTraced();
      Become(Apply(s, a));
      log := log + [a];
      trace := Disturbed;
    }

    /** Everybody but the recovery worker: the normal reconciler, users and outsiders. */
    method Interfere()
      requires Valid()
      modifies this
      ensures Valid() && worker == old(worker) && Since(old(Sign()))
      ensures answer.configured == old(answer.configured)
      ensures trace.Quiet? ==> Now() == old(Now()) && log == old(log)
      ensures forall r: Recovery | old(Holds(r)) :: Holds(r)
    {
      hide Run;
      hide Init;
      hide WorkerTraced;
      DisturbedIsTraced();
      ChangeAnswers();
      var more: nat := *;
      while more > 0
        invariant Valid() && worker == old(worker) && Since(old(Sign())) && answer.configured == old(answer.configured)
        invariant trace.Quiet? ==> Now() == old(Now()) && log == old(log)
        invariant forall r: Recovery | old(Holds(r)) :: Holds(r)
      {
        var a: Action := *;
        if !IsWorkerAction(a) {
          ForeignAction(a);
        }
        more := more - 1;
      }
    }

    // -------------------------------------------------------------- shared by all calls

    /** The reconcile ends here: an error is returned, or the process dies. */
    method Crash()
      requires Valid()
      modifies this`worker, this`log, this`trace
      ensures Valid() && worker.Idle? && log == old(log) + [WorkerCrash] && trace == Disturbed
    {
      RunOne(start, log, WorkerCrash);
      hide Run;
      hide Init;
      hide WorkerTraced;
      DisturbedIsTraced();
      worker := Idle;
      log := log + [WorkerCrash];
      trace := Disturbed;
    }

    /** The controller holds r and its next call only reads. */
    ghost predicate Reading(r: Recovery)
      reads this
    {
      Valid() && Holds(r) && worker.Busy? && worker.u == r.uid && !IsWrite(worker.at)
    }

    /** The controller holds r and its next call writes. */
    ghost predicate Writing(r: Recovery)
      reads this
    {
      Valid() && Holds(r) && worker.Busy? && worker.u == r.uid && IsWrite(worker.at)
    }

    /** The last action of the run is a call of the worker, which stood at `before` on the stores st. */
    ghost predicate CalledLast(before: Worker, st: Store)
      reads this
    {
      log != [] && log[|log| - 1] == WorkerCall(answer) &&
      var s := Run(start, log[..|log| - 1]); s.st == st && s.worker == before
    }

    /** Records that the pending read was answered from the current stores. */
    method Answer(ghost r: Recovery)
      requires Reading(r)
      modifies this`worker, this`log
      ensures Valid() && Holds(r) && Since(old(Sign()))
      ensures worker == Read(Stores(), r.uid, old(worker).deletion, old(worker).at, answer)
      ensures log == old(log) + [WorkerCall(answer)] && CalledLast(old(worker), Stores())
    {
      ghost var s := Now();
      RunOne(start, log, WorkerCall(answer));
      WorkerTraceGrows(trace, answer, log, s);
      assert (log + [WorkerCall(answer)])[..|log|] == log;
      hide Run;
      hide Init;
      hide WorkerTraced;
      hide Read;
      hide WorkerTraced;
      worker := Read(Stores(), worker.u, worker.deletion, worker.at, answer);
      log := log + [WorkerCall(answer)];
      assert Now() == Apply(s, WorkerCall(answer));
    }

    /** The read the worker stood at was answered from the stores as they are now. */
    ghost predicate Answered(r: Recovery, before: Worker)
      requires before.Busy?
      reads this
    {
      Valid() && Holds(r) && worker == Read(Stores(), r.uid, before.deletion, before.at, answer) &&
      CalledLast(before, Stores())
    }

    ghost predicate Failed()
      reads this
    {
      Valid() && worker.Idle?
    }

    // -------------------------------------------------------------- reads

    method GetUami(ghost r: Recovery) returns (ok: bool, found: Option<Uami>)
      requires Reading(r)
      modifies this
      ensures Since(old(Sign())) && (if ok then Answered(r, old(worker)) else Failed())
      ensures ok ==> found == uami
    {
      hide Run;
      hide Init;
      hide WorkerTraced;
      hide Read;
      found := None;
      Interfere();
      ok := *;
      if !ok {
        Crash();
        return;
      }
      found := uami;
      Answer(r);
    }

    /** Listing the credentials of an identity that is gone is an error. */
    method ListCredentials(ghost r: Recovery) returns (ok: bool, found: seq<Fic>)
      requires Reading(r)
      modifies this
      ensures Since(old(Sign())) && (if ok then Answered(r, old(worker)) else Failed())
      ensures ok ==> found == fics && uami.Some?
    {
      hide Run;
      hide Init;
      hide WorkerTraced;
      hide Read;
      found := [];
      Interfere();
      ok := *;
      if !ok || uami.None? {
        ok := false;
        Crash();
        return;
      }
      found := fics;
      Answer(r);
    }

    method GetServiceAccount(ghost r: Recovery) returns (ok: bool, found: Option<Sa>)
      requires Reading(r)
      modifies this
      ensures Since(old(Sign())) && (if ok then Answered(r, old(worker)) else Failed())
      ensures ok ==> found == sa
    {
      hide Run;
      hide Init;
      hide WorkerTraced;
      hide Read;
      found := None;
      Interfere();
      ok := *;
      if !ok {
        Crash();
        return;
      }
      found := sa;
      Answer(r);
    }

    method GetRecovery(ghost r: Recovery) returns (ok: bool, found: Recovery)
      requires Reading(r)
      modifies this
      ensures Since(old(Sign())) && (if ok then Answered(r, old(worker)) else Failed())
      ensures ok ==> r.uid in recs && found == recs[r.uid]
    {
      hide Run;
      hide Init;
      hide WorkerTraced;
      hide Read;
      found := Recovery("", "", 0, "", Key("", ""), "", false, false, false, false, None, map[]);
      Interfere();
      ok := *;
      if !ok {
        Crash();
        return;
      }
      found := recs[worker.u];
      Answer(r);
    }

    /** The issuer, when it is ready, is whatever it is now. */
    method GetIssuer(ghost r: Recovery) returns (ok: bool, url: Option<string>)
      requires Reading(r)
      modifies this
      ensures Since(old(Sign())) && (if ok then Answered(r, old(worker)) && url == answer.issuer else Failed())
      ensures ok ==> |old(log)| < |log|
    {
      hide Run;
      hide Init;
      hide WorkerTraced;
      hide Read;
      url := None;
      Interfere();
      ok := *;
      if !ok {
        Crash();
        return;
      }
      url := answer.issuer;
      Answer(r);
    }

    /** Everything a reconcile does to a target that uses another UAMI name, up to its status patch. */
    method ActElsewhere(ghost r: Recovery) returns (ok: bool, outcome: Outcome)
      requires Reading(r)
      modifies this
      ensures Since(old(Sign())) && (if ok then Answered(r, old(worker)) && outcome == answer.outcome else Failed())
    {
      hide Run;
      hide Init;
      hide WorkerTraced;
      hide Read;
      outcome := OutcomeBlocked;
      Interfere();
      ok := *;
      if !ok {
        Crash();
        return;
      }
      outcome := answer.outcome;
      Answer(r);
    }

    /** getCurrentTarget: the WorkloadIdentity of that name, if it is there. */
    method GetWorkloadIdentity(ghost r: Recovery, key: Key) returns (ok: bool, found: Option<Wi>)
      requires Reading(r)
      modifies this
      ensures Since(old(Sign())) && (if ok then Answered(r, old(worker)) else Failed())
      ensures ok ==> found == if wi.Some? && wi.value.id.key == key then wi else None
    {
      hide Run;
      hide Init;
      hide WorkerTraced;
      hide Read;
      found := None;
      Interfere();
      ok := *;
      if !ok {
        Crash();
        return;
      }
      found := if wi.Some? && wi.value.id.key == key then wi else None;
      Answer(r);
    }

    /** Whether the target ever used the UAMI name of this cluster object. */
    method IsLocal(target: Uid) returns (here: bool)
      ensures here <==> target in local
    {
      here := target in local;
    }

    /** All records, in some order. */
    method AllRecords() returns (list: seq<Recovery>)
      ensures Election.Records(list) == recs.Values
    {
      list := [];
      var left := recs.Values;
      while left != {}
        invariant left <= recs.Values && Election.Records(list) == recs.Values - left
        decreases left
      {
        var x :| x in left;
        RecordsAppend(list, x);
        list := list + [x];
        left := left - {x};
      }
    }

    method ListRecoveries(ghost r: Recovery) returns (ok: bool, list: seq<Recovery>)
      requires Reading(r)
      modifies this
      ensures Since(old(Sign())) && (if ok then Answered(r, old(worker)) else Failed())
      ensures ok ==> Election.Records(list) == recs.Values && |old(log)| < |log|
    {
      hide Run;
      hide Init;
      hide WorkerTraced;
      hide Read;
      list := [];
      Interfere();
      ok := *;
      if !ok {
        Crash();
        return;
      }
      list := AllRecords();
      Answer(r);
    }

    // -------------------------------------------------------------- writes

    /** The pending write landed: the stores are what it makes of stores reached meanwhile. */
    ghost predicate Landed(r: Recovery, before: Worker, st: Store)
      requires before.Busy?
      reads this
    {
      Valid() && r.uid in st.recs && SameButDeleting(r, st.recs[r.uid]) && Stores() == Write(st, r.uid, before.at) &&
      worker == AfterWrite(st, r.uid, before.deletion, before.at) && CalledLast(before, st)
    }

    /** Records that the pending write was made on the stores of s. */
    method Land(ghost s: State, next: Worker)
      requires Init(start) && s == Run(start, log) && s.worker.Busy? && s.worker.u in s.st.recs && IsWrite(s.worker.at)
      requires WorkerTraced(trace, answer, log, s) && Stores() == Write(s.st, s.worker.u, s.worker.at) && normal == s.normal
      requires next == AfterWrite(s.st, s.worker.u, s.worker.deletion, s.worker.at) && worker == s.worker
      modifies this`worker, this`log
      ensures Valid() && worker == next && Since(old(Sign())) && CalledLast(old(worker), s.st) && |log| == |old(log)| + 1
    {
      RunOne(start, log, WorkerCall(answer));
      assert (log + [WorkerCall(answer)])[..|log|] == log;
      WorkerTraceGrows(trace, answer, log, s);
      hide Run;
      hide Init;
      hide WorkerTraced;
      hide Write;
      hide AfterWrite;
      hide WorkerTraced;
      worker := next;
      log := log + [WorkerCall(answer)];
      assert Now() == Apply(s, WorkerCall(answer));
    }

    /** The body of patchTargetRecoveryCondition on the target as it is now. */
    method PatchReadyCondition(r: Recovery, fromReasons: set<Reason>, to: Reason)
      modifies this`wi, this`clock
      ensures wi == PatchTarget(r, old(wi), fromReasons, to, old(clock)) && clock == old(clock) + 1
    {
      if wi.Some? {
        var current := wi.value;
        if current.id.key == r.key && current.id.uid == r.target && current.evidence == Some(r.source) {
          if current.ready.Some? && current.ready.value.status == StatusFalse && current.ready.value.reason in fromReasons {
            var ready := Some(Ready(StatusFalse, to, current.gen));
            if current.ready != ready {
              wi := Some(current.(ready := ready, version := clock));
            }
          }
        }
      }
      clock := clock + 1;
    }

    /** patchTargetRecoveryCondition: read the target and patch its Ready condition, or do nothing. */
    method PatchTargetRecoveryCondition(r: Recovery, fromReasons: set<Reason>, to: Reason) returns (ok: bool, ghost st: Store)
      requires Writing(r) && (worker.at.LockTarget? || worker.at.ReleaseCancelled? || worker.at.ReleaseCompleted?)
      requires worker.at.LockTarget? ==> fromReasons == LOCK_FROM && to == ReasonRecoveryInProgress
      requires worker.at.ReleaseCancelled? ==> fromReasons == RELEASE_FROM && to == ReasonRecoveryCancelled
      requires worker.at.ReleaseCompleted? ==> fromReasons == RELEASE_FROM && to == ReasonRecoveryCompleted
      modifies this
      ensures Since(old(Sign())) && (if ok then Landed(r, old(worker), st) && Holds(r) && |old(log)| < |log| else Failed())
      ensures ok ==>
                worker == match old(worker).at
                          case LockTarget => Busy(r.uid, old(worker).deletion, PatchStatus(PatchStarted))
                          case ReleaseCancelled => Busy(r.uid, old(worker).deletion, RemoveFinalizer)
                          case ReleaseCompleted(remove) => if remove then Busy(r.uid, old(worker).deletion, RemoveFinalizer) else Idle
                          case _ => Idle
    {
      hide Run;
      hide Init;
      hide WorkerTraced;
      hide PatchTarget;
      st := Stores();
      Interfere();
      st := Stores();
      ok := *;
      if !ok {
        Crash();
        return;
      }
      ghost var s := Now();
      var next := AfterWrite(Stores(), worker.u, worker.deletion, worker.at);
      PatchReadyCondition(r, fromReasons, to);
      SameTargetPatch(r, st.recs[r.uid], st.wi, fromReasons, to, st.clock);
      Land(s, next);
    }

    /** patchRecoveryStatus: read the record, edit its status, write it back. */
    method PatchRecoveryStatus(r: Recovery, patch: StatusPatch) returns (ok: bool, patched: Recovery, ghost st: Store)
      requires Writing(r) && worker.at == PatchStatus(patch)
      modifies this
      ensures Since(old(Sign())) && patched == ApplyPatch(r, patch)
      ensures if ok then Landed(r, old(worker), st) && Holds(patched) else Failed()
      ensures ok ==> worker == AfterStatus(r.uid, old(worker).deletion, patch)
    {
      hide Run;
      hide Init;
      hide WorkerTraced;
      hide ApplyPatch;
      hide SameButDeleting;
      patched := ApplyPatch(r, patch);
      Interfere();
      st := Stores();
      SamePatch(r, st.recs[r.uid], patch);
      ok := *;
      if !ok {
        Crash();
        return;
      }
      ghost var s := Now();
      var next := AfterWrite(Stores(), worker.u, worker.deletion, worker.at);
      var mutated := RecoveryStatus.Mutated(recs[r.uid], patch);
      recs := recs[r.uid := mutated];
      Land(s, next);
    }

    /** The update of removeRecoveryFinalizer: with its last finalizer gone the record goes away. */
    method RemoveRecoveryFinalizer(r: Recovery) returns (ok: bool)
      requires Writing(r) && worker.at.RemoveFinalizer?
      modifies this
      ensures Since(old(Sign())) && Failed() && (ok ==> r.uid !in recs)
    {
      hide Run;
      hide Init;
      hide WorkerTraced;
      Interfere();
      ok := *;
      if !ok {
        Crash();
        return;
      }
      ghost var s := Now();
      recs := recs - {r.uid};
      Land(s, Idle);
    }

    /** updateRecoveryTags; it fails when the UAMI is gone. */
    method UpdateRecoveryTags(r: Recovery, tags: Tags) returns (ok: bool, ghost st: Store)
      requires Writing(r)
      requires match worker.at
               case MarkPut(t, copy) => tags == MergeTags(copy, FenceTags(Req(r), t.uid))
               case CommitPut(t, copy) => tags == MergeTags(copy, CommitTags(Req(r), t.uid))
               case FinalizePut(t, copy) => tags == WithoutFence(copy)
               case _ => false
      modifies this
      ensures Since(old(Sign())) && (if ok then Landed(r, old(worker), st) && Holds(r) && st.uami.Some? else Failed())
      ensures ok ==> worker == Busy(r.uid, old(worker).deletion, VerifyOf(old(worker).at))
    {
      hide Run;
      hide Init;
      hide WorkerTraced;
      hide MergeTags;
      hide WithoutFence;
      Interfere();
      st := Stores();
      ok := *;
      if !ok {
        Crash();
        return;
      }
      ghost var s := Now();
      var next := AfterWrite(Stores(), worker.u, worker.deletion, worker.at);
      ok := uami.Some?;
      if uami.Some? {
        uami := Some(uami.value.(tags := tags));
      }
      Land(s, next);
    }

    /** federatedCredentials.CreateOrUpdate; it fails when the UAMI is gone. */
    method CreateOrUpdateCredential(r: Recovery, name: string, tuple: Tuple) returns (ok: bool, ghost st: Store)
      requires Writing(r) && worker.at.FicPut? && name == worker.at.t.ficName && r.plan.Some? &&
               tuple == r.plan.value.tuple
      modifies this
      ensures Since(old(Sign())) && (if ok then Landed(r, old(worker), st) && Holds(r) && st.uami.Some? else Failed())
      ensures ok ==> worker == Busy(r.uid, old(worker).deletion, FicVerify(old(worker).at.t))
    {
      hide Run;
      hide Init;
      hide WorkerTraced;
      hide Upsert;
      Interfere();
      st := Stores();
      ok := *;
      if !ok {
        Crash();
        return;
      }
      ghost var s := Now();
      var next := AfterWrite(Stores(), worker.u, worker.deletion, worker.at);
      ok := uami.Some?;
      if uami.Some? {
        fics := Upsert(uamiId, name, tuple, fics);
      }
      Land(s, next);
    }

    /** The versioned patch of the ServiceAccount: it fails unless the account is the one read. */
    method PatchServiceAccount(r: Recovery, original: Sa, desired: Sa) returns (ok: bool, ghost st: Store)
      requires Writing(r) && worker.at.SaPut? && original == worker.at.sa && r.plan.Some?
      requires desired == Transferred(worker.at.t.uid, r.plan.value, original)
      modifies this
      ensures Since(old(Sign())) && (if ok then Landed(r, old(worker), st) && Holds(r) else Failed())
      ensures ok ==> worker == Busy(r.uid, old(worker).deletion, SaVerify(old(worker).at.t, original.uid))
    {
      hide Run;
      hide Init;
      hide WorkerTraced;
      hide Transferred;
      hide Upsert;
      hide MergeTags;
      hide WithoutFence;
      hide PatchTarget;
      hide ApplyPatch;
      Interfere();
      st := Stores();
      ok := *;
      if !ok {
        Crash();
        return;
      }
      ghost var s := Now();
      var next := AfterWrite(Stores(), worker.u, worker.deletion, worker.at);
      ok := sa.Some? && sa.value.version == original.version;
      if ok {
        sa := Some(desired.(version := clock));
        clock := clock + 1;
      }
      Land(s, next);
    }

    // -------------------------------------------------------------- the ends of a reconcile

    /** The first read of a reconcile. Undisturbed, the trace begins anew with what it read. */
    method GetRecoveryByName(u: Uid) returns (found: Option<Recovery>)
      requires Valid() && worker.Idle?
      modifies this
      ensures Valid() && old(log) <= log && (found.None? ==> worker.Idle?) && answer.configured == old(answer.configured)
      ensures found.Some? ==>
                u in recs && found.value == recs[u] && u == found.value.uid && worker == Enter(found.value, answer.configured) &&
                (found.value.finalizer ==> Holds(found.value))
      ensures trace.Quiet? ==> old(trace).Quiet? && answer == old(answer) && (found.Some? <==> u in old(recs))
      ensures trace.Quiet? && found.None? ==> Now() == old(Now()) && log == old(log)
      ensures trace.Quiet? && found.Some? ==>
                trace == Quiet(State(old(Stores()), Enter(old(recs)[u], answer.configured), old(normal)), |log|) &&
                log == old(log) + [WorkerBegin(u, answer)]
    {
      hide Run;
      hide Init;
      hide WorkerTraced;
      hide Enter;
      found := None;
      Interfere();
      if u !in recs {
        return;
      }
      KnownRecord(u);
      var failed: bool := *;
      if failed {
        DisturbedIsTraced();
        trace := Disturbed;
        return;
      }
      found := Some(recs[u]);
      RunOne(start, log, WorkerBegin(u, answer));
      worker := Enter(recs[u], answer.configured);
      log := log + [WorkerBegin(u, answer)];
      if trace.Quiet? {
        trace := Quiet(Now(), |log|);
      }
      TraceBegins(Now(), answer, log);
      DisturbedIsTraced();
    }

    lemma KnownRecord(u: Uid)
      requires Reached() && u in recs
      ensures recs[u].uid == u && u in used
    {
      ReachableIsSafe(start, log);
      assert Inv(Now());
    }

    /** The update that adds the finalizer; the record may have gone meanwhile. */
    method AddRecoveryFinalizer(u: Uid) returns (ok: bool)
      requires Valid() && worker == Busy(u, false, AddFinalizer)
      modifies this
      ensures Since(old(Sign())) && Failed() && (ok ==> u in recs && recs[u].finalizer)
    {
      hide Run;
      hide Init;
      hide WorkerTraced;
      Interfere();
      ok := *;
      if !ok || u !in recs {
        ok := false;
        Crash();
        return;
      }
      ghost var s := Now();
      recs := recs[u := recs[u].(finalizer := true)];
      Land(s, Idle);
    }
  }
}
