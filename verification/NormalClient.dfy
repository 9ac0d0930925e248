/** The API calls of the normal reconciler on the cluster. Before every call the recovery worker,
    users and outsiders may act any number of times. As long as they do not and no call fails, the
    trace is quiet and the state is exactly what the calls made since it began compute. */
module NormalClient {
  import opened OwnershipTags
  import opened Azure
  import opened Resources
  import opened ServiceAccounts
  import opened Protocol
  import opened Invariant
  import opened Safety
  import opened FenceTheorems
  import opened Handover
  import opened Cluster

  lemma OthersKeepNormal(s: State, a: Action)
    requires !IsNormalAction(a)
    ensures Apply(s, a).normal == s.normal && Apply(s, a).st.uamiId == s.st.uamiId
  {
    hide Enter;
    hide Read;
    hide AfterWrite;
    hide Upsert;
    hide Transferred;
    hide MergeTags;
    hide WithoutFence;
    hide StepNormal;
  }

  // ---------------------------------------------------------------- quiet traces

  /** From s the run went on by calls of the normal reconciler alone, all answered by c, and s' is what
      they compute. */
  ghost predicate NormalOnward(c: Choice, s: State, log: seq<Action>, s': State, later: seq<Action>) {
    log <= later && s'.worker == s.worker && (forall i | |log| <= i < |later| :: later[i] == NormalCall(c)) &&
    NormalPosition(s'.st, s'.normal) == NormalCalls(s.st, s.normal, c, |later| - |log|)
  }

  /** In a quiet trace the run is made of calls of the normal reconciler alone, none of which fails. */
  ghost predicate NormalTraced(trace: Trace, answer: Choice, log: seq<Action>, s: State) {
    trace.Quiet? ==>
      !answer.fails && trace.since <= |log| && s.worker == trace.begun.worker &&
      NormalPosition(s.st, s.normal) == NormalCalls(trace.begun.st, trace.begun.normal, answer, |log| - trace.since) &&
      forall i | trace.since <= i < |log| :: log[i] == NormalCall(answer)
  }

  lemma NormalTraceGrows(trace: Trace, answer: Choice, log: seq<Action>, s: State)
    requires NormalTraced(trace, answer, log, s)
    ensures NormalTraced(trace, answer, log + [NormalCall(answer)], StepNormal(s, answer))
  {
    if trace.Quiet? {
      NormalCallsCompose(trace.begun.st, trace.begun.normal, answer, |log| - trace.since, 1);
      NormalCallIsStep(s, answer);
    }
    hide NormalCalls;
    hide StepNormal;
  }

  lemma NormalCallIsStep(s: State, c: Choice)
    ensures var s' := StepNormal(s, c); NormalCalls(s.st, s.normal, c, 1) == NormalPosition(s'.st, s'.normal) && s'.worker == s.worker
  {
    hide NormalRead;
    hide NormalWrite;
    hide AfterNormalWrite;
    NoMoreNormalCalls(StepNormal(s, c).st, StepNormal(s, c).normal, c);
  }

  lemma NormalTraceBegins(s: State, answer: Choice, log: seq<Action>)
    requires !answer.fails
    ensures NormalTraced(Quiet(s, |log|), answer, log, s)
  {
    NoMoreNormalCalls(s.st, s.normal, answer);
  }

  lemma DisturbedNormal()
    ensures forall answer, log, s :: NormalTraced(Disturbed, answer, log, s)
  {
  }

  /** How one call ended: answered, answered with an error, or not at all. */
  datatype CallResult = Answered | Refused | Died

  class NormalClient {
    const cluster: Cluster

    constructor (cluster: Cluster)
      ensures this.cluster == cluster
    {
      this.cluster := cluster;
    }

    ghost predicate Valid()
      reads cluster
    {
      cluster.Reached() && NormalTraced(cluster.trace, cluster.answer, cluster.log, cluster.Now())
    }

    /** The reconcile of the copy w is about to make the call at `at`. */
    ghost predicate Stands(w: Wi, at: NAt)
      reads cluster
    {
      Valid() && cluster.normal == NBusy(w, at)
    }

    /** The reconcile stands where the protocol says it goes on. */
    ghost predicate GoesOn(next: Normal)
      reads cluster
    {
      Valid() && cluster.normal == next
    }

    ghost predicate Ended()
      reads cluster
    {
      Valid() && cluster.normal.NIdle?
    }

    /** The process died, or an error nobody publishes ended the reconcile. */
    ghost predicate Crashed()
      reads cluster
    {
      Ended() && cluster.log != [] && cluster.log[|cluster.log| - 1] == NormalCrash
    }

    /** The last action of the run is the reconciler's call at `at`, answered by c on the stores st. */
    ghost predicate CalledLast(w: Wi, at: NAt, c: Choice, st: Store)
      reads cluster
    {
      cluster.log != [] && cluster.log[|cluster.log| - 1] == NormalCall(c) &&
      var s := Run(cluster.start, cluster.log[..|cluster.log| - 1]); s.st == st && s.normal == NBusy(w, at)
    }

    /** What every call keeps about the run and the answers. */
    ghost predicate Since(m: Mark)
      reads cluster
    {
      cluster.Since(m) && cluster.answer.configured == m.answer.configured
    }

    /** From here on the reconciler is watched. */
    method Watch(configured: bool)
      requires cluster.Reached()
      modifies cluster`answer, cluster`trace
      ensures Valid() && cluster.trace == Quiet(cluster.Now(), |cluster.log|) && cluster.answer.configured == configured
    {
      hide Run;
      hide Init;
      hide NormalTraced;
      cluster.answer := cluster.answer.(configured := configured, fails := false);
      cluster.trace := Quiet(cluster.Now(), |cluster.log|);
      NormalTraceBegins(cluster.Now(), cluster.answer, cluster.log);
    }

    /** One action of somebody else. */
    method ForeignAction(a: Action)
      requires Valid() && !IsNormalAction(a)
      modifies cluster
      ensures Valid() && cluster.normal == old(cluster.normal) && cluster.log == old(cluster.log) + [a]
      ensures cluster.trace == Disturbed && cluster.answer == old(cluster.answer)
    {
      hide Run;
      hide Init;
      hide NormalTraced;
      hide Apply;
      var s := cluster.Now();
      OthersKeepNormal(s, a);
      RunOne(cluster.start, cluster.log, a);
      DisturbedNormal();
      cluster.Become(Apply(s, a));
      cluster.log := cluster.log + [a];
      cluster.trace := Disturbed;
    }

    method Interfere()
      requires Valid()
      modifies cluster
      ensures Valid() && cluster.normal == old(cluster.normal) && Since(old(cluster.Sign()))
      ensures cluster.trace.Quiet? ==> cluster.Now() == old(cluster.Now()) && cluster.log == old(cluster.log)
    {
      hide Run;
      hide Init;
      hide NormalTraced;
      DisturbedNormal();
      cluster.ChangeAnswers();
      var more: nat := *;
      while more > 0
        invariant Valid() && cluster.normal == old(cluster.normal) && Since(old(cluster.Sign()))
        invariant cluster.trace.Quiet? ==> cluster.Now() == old(cluster.Now()) && cluster.log == old(cluster.log)
      {
        var a: Action := *;
        if !IsNormalAction(a) {
          ForeignAction(a);
        }
        more := more - 1;
      }
    }

    /** The reconcile ends here: an error is returned, or the process dies. */
    method Die()
      requires Valid()
      modifies cluster`normal, cluster`log, cluster`trace
      ensures Crashed() && cluster.log == old(cluster.log) + [NormalCrash] && cluster.trace == Disturbed
    {
      RunOne(cluster.start, cluster.log, NormalCrash);
      hide Run;
      hide Init;
      hide NormalTraced;
      DisturbedNormal();
      cluster.normal := NIdle;
      cluster.log := cluster.log + [NormalCrash];
      cluster.trace := Disturbed;
    }

    /** Records that the pending call was made on the stores of s and answered by c. */
    method Record(ghost s: State, w: Wi, at: NAt, c: Choice, next: Normal)
      requires Init(cluster.start) && s == Run(cluster.start, cluster.log) && s.normal == NBusy(w, at)
      requires NormalTraced(cluster.trace, cluster.answer, cluster.log, s) && c == cluster.answer.(fails := c.fails)
      requires StepNormal(s, c) == State(cluster.Stores(), cluster.worker, next)
      modifies cluster`normal, cluster`log, cluster`trace
      ensures GoesOn(next) && cluster.log == old(cluster.log) + [NormalCall(c)] && CalledLast(w, at, c, s.st)
      ensures cluster.trace == if c.fails then Disturbed else old(cluster.trace)
    {
      hide Run;
      hide Init;
      hide NormalTraced;
      hide StepNormal;
      RunOne(cluster.start, cluster.log, NormalCall(c));
      if !c.fails && cluster.trace.Quiet? {
        QuietAnswer(cluster.trace, cluster.answer, cluster.log, s);
        NormalTraceGrows(cluster.trace, cluster.answer, cluster.log, s);
      }
      NotQuiet(cluster.trace, cluster.answer, cluster.log + [NormalCall(c)], StepNormal(s, c));
      DisturbedNormal();
      assert (cluster.log + [NormalCall(c)])[..|cluster.log|] == cluster.log;
      cluster.normal := next;
      cluster.log := cluster.log + [NormalCall(c)];
      if c.fails {
        cluster.trace := Disturbed;
      }
    }

    lemma QuietAnswer(trace: Trace, answer: Choice, log: seq<Action>, s: State)
      requires trace.Quiet? && NormalTraced(trace, answer, log, s)
      ensures !answer.fails
    {
    }

    lemma NotQuiet(trace: Trace, answer: Choice, log: seq<Action>, s: State)
      ensures !trace.Quiet? ==> NormalTraced(trace, answer, log, s)
    {
    }

    /** Records that the pending read was answered, or refused, from the current stores. */
    method Answer(w: Wi, at: NAt, refused: bool) returns (ghost c: Choice)
      requires Stands(w, at) && !IsNormalWrite(at)
      modifies cluster`normal, cluster`log, cluster`trace
      ensures Since(old(cluster.Sign())) && c == cluster.answer.(fails := refused)
      ensures GoesOn(NormalRead(cluster.Stores(), w, at, c)) && CalledLast(w, at, c, cluster.Stores())
    {
      hide Run;
      hide Init;
      hide NormalTraced;
      hide NormalRead;
      var choice := cluster.answer.(fails := refused);
      c := choice;
      Record(cluster.Now(), w, at, choice, NormalRead(cluster.Stores(), w, at, choice));
    }

    /** The pending read was answered from the stores as they are now. */
    ghost predicate Read(w: Wi, at: NAt, refused: bool)
      reads cluster
    {
      GoesOn(NormalRead(cluster.Stores(), w, at, cluster.answer.(fails := refused))) &&
      CalledLast(w, at, cluster.answer.(fails := refused), cluster.Stores())
    }

    // -------------------------------------------------------------- reads

    /** The first read of a reconcile. Undisturbed, the trace begins anew with what it read. */
    method GetWorkloadIdentity() returns (found: Option<Wi>)
      requires Ended()
      modifies cluster
      ensures old(cluster.log) <= cluster.log && Valid() && cluster.answer.configured == old(cluster.answer.configured)
      ensures if found.Some? then cluster.wi == found && GoesOn(NormalEnter(found.value)) else Ended()
      ensures cluster.trace.Quiet? ==>
                old(cluster.trace).Quiet? && cluster.answer == old(cluster.answer) && found == old(cluster.wi)
      ensures cluster.trace.Quiet? && found.None? ==> cluster.Now() == old(cluster.Now()) && cluster.log == old(cluster.log)
      ensures cluster.trace.Quiet? && found.Some? ==>
                cluster.trace == Quiet(old(cluster.Now()).(normal := NormalEnter(found.value)), |cluster.log|) &&
                cluster.log == old(cluster.log) + [NormalBegin]
    {
      hide Run;
      hide Init;
      hide NormalTraced;
      hide NormalEnter;
      found := None;
      Interfere();
      DisturbedNormal();
      if cluster.wi.None? {
        return;
      }
      var failed: bool := *;
      if failed {
        cluster.trace := Disturbed;
        return;
      }
      found := cluster.wi;
      RunOne(cluster.start, cluster.log, NormalBegin);
      ghost var quiet := cluster.trace.Quiet?;
      if quiet {
        QuietAnswer(cluster.trace, cluster.answer, cluster.log, cluster.Now());
      }
      cluster.normal := NormalEnter(found.value);
      cluster.log := cluster.log + [NormalBegin];
      if cluster.trace.Quiet? {
        cluster.trace := Quiet(cluster.Now(), |cluster.log|);
        NormalTraceBegins(cluster.Now(), cluster.answer, cluster.log);
      } else {
        NotQuiet(cluster.trace, cluster.answer, cluster.log, cluster.Now());
      }
    }

    /** The issuer, when it is ready, is whatever it is now. */
    method GetIssuer(w: Wi) returns (ok: bool, url: Option<string>)
      requires Stands(w, NIssuer)
      modifies cluster
      ensures Since(old(cluster.Sign()))
      ensures if ok then Read(w, NIssuer, false) && url == cluster.answer.issuer else Crashed()
    {
      hide Run;
      hide Init;
      hide NormalTraced;
      hide NormalRead;
      url := None;
      Interfere();
      ok := *;
      if !ok {
        Die();
        return;
      }
      url := cluster.answer.issuer;
      ghost var c := Answer(w, NIssuer, false);
    }

    /** In a deletion an error ends the reconcile; elsewhere it is an answer. */
    method GetServiceAccount(w: Wi, at: NAt) returns (result: CallResult, found: Option<Sa>)
      requires Stands(w, at) && (at.NInspect? || at.NSaGet? || at.NDeleteSaGet?)
      modifies cluster
      ensures Since(old(cluster.Sign())) && (if result == Died then Crashed() else Read(w, at, result == Refused))
      ensures result == Answered ==> found == cluster.sa
      ensures result == Refused ==> !at.NDeleteSaGet?
    {
      hide Run;
      hide Init;
      hide NormalTraced;
      hide NormalRead;
      found := None;
      Interfere();
      result := *;
      if result == Died || (result == Refused && at.NDeleteSaGet?) {
        result := Died;
        Die();
        return;
      }
      found := cluster.sa;
      ghost var c := Answer(w, at, result == Refused);
    }

    method GetUami(w: Wi, at: NAt) returns (result: CallResult, found: Option<Uami>)
      requires Stands(w, at) && (at.NDetect? || at.NEnsure? || at.NDeleteGet?)
      modifies cluster
      ensures Since(old(cluster.Sign())) && (if result == Died then Crashed() else Read(w, at, result == Refused))
      ensures result == Answered ==> found == cluster.uami
    {
      hide Run;
      hide Init;
      hide NormalTraced;
      hide NormalRead;
      found := None;
      Interfere();
      result := *;
      if result == Died {
        Die();
        return;
      }
      found := cluster.uami;
      ghost var c := Answer(w, at, result == Refused);
    }

    /** Reading the credential of an identity that is gone finds none. */
    method GetCredential(w: Wi, at: NAt) returns (result: CallResult, found: Option<Fic>)
      requires Stands(w, at) && at.NFicGet?
      modifies cluster
      ensures Since(old(cluster.Sign())) && (if result == Died then Crashed() else Read(w, at, result == Refused))
      ensures result == Answered ==> found == if cluster.uami.Some? then FindFic(w.id.ficName, cluster.fics) else None
    {
      hide Run;
      hide Init;
      hide NormalTraced;
      hide NormalRead;
      hide FindFic;
      found := None;
      Interfere();
      result := *;
      if result == Died {
        Die();
        return;
      }
      found := if cluster.uami.Some? then FindFic(w.id.ficName, cluster.fics) else None;
      ghost var c := Answer(w, at, result == Refused);
    }

    /** No manager is configured: the error that ends the reconcile comes before the call. */
    method RejectUnconfigured(w: Wi)
      requires Stands(w, NDeleteGet) && !cluster.answer.configured
      modifies cluster
      ensures Since(old(cluster.Sign())) && Ended()
    {
      hide Run;
      hide Init;
      hide NormalTraced;
      ghost var c := Answer(w, NDeleteGet, false);
    }

    // -------------------------------------------------------------- writes

    /** The pending write landed: the stores are what it makes of the stores the run had reached. */
    ghost predicate Landed(w: Wi, at: NAt, c: Choice, st: Store)
      reads cluster
    {
      GoesOn(AfterNormalWrite(st, w, at, c)) && cluster.Stores() == NormalWrite(st, w, at, c) && CalledLast(w, at, c, st)
    }

    /** Records that the pending write was made on the stores of s. */
    method Land(ghost s: State, w: Wi, at: NAt, c: Choice, next: Normal)
      requires Init(cluster.start) && s == Run(cluster.start, cluster.log) && s.normal == NBusy(w, at) && IsNormalWrite(at)
      requires NormalTraced(cluster.trace, cluster.answer, cluster.log, s) && c == cluster.answer.(fails := c.fails)
      requires cluster.Stores() == NormalWrite(s.st, w, at, c) && cluster.worker == s.worker
      requires next == AfterNormalWrite(s.st, w, at, c)
      modifies cluster`normal, cluster`log, cluster`trace
      ensures Landed(w, at, c, s.st) && Since(old(cluster.Sign()))
    {
      hide Run;
      hide Init;
      hide NormalTraced;
      hide NormalWrite;
      hide AfterNormalWrite;
      Record(s, w, at, c, next);
    }

    /** No call that would change Azure or the ServiceAccount is pending while the UAMI is fenced. */
    lemma PendingIsUnfenced(w: Wi, at: NAt)
      requires Stands(w, at) && AboutToMutate(NBusy(w, at))
      ensures !Fenced(cluster.Stores())
    {
      ReachableIsSafe(cluster.start, cluster.log);
      hide Run;
      hide Init;
      hide Inv;
      hide Fenced;
      hide NormalTraced;
      if Fenced(cluster.Stores()) {
        NoMutationUnderFence(cluster.Now());
      }
    }

    /** identities.CreateOrUpdate with the identity's own tags. */
    method CreateIdentity(w: Wi, at: NAt, tags: Tags) returns (result: CallResult, m: Managed, ghost c: Choice, ghost st: Store)
      requires Stands(w, at) && at.NCreate? && tags == WorkloadIdentityTags(w.id)
      modifies cluster
      ensures Since(old(cluster.Sign()))
      ensures if result == Died then Crashed() else Landed(w, at, c, st) && !Fenced(st)
      ensures result != Died ==> c.fails == (result == Refused) && m == Managed(c.clientId, c.tenantId)
    {
      hide Run;
      hide Init;
      hide NormalTraced;
      hide Fenced;
      hide WorkloadIdentityTags;
      Interfere();
      m := Managed(cluster.answer.clientId, cluster.answer.tenantId);
      PendingIsUnfenced(w, at);
      st, c := cluster.Stores(), cluster.answer;
      result := *;
      if result == Died {
        Die();
        return;
      }
      var choice := cluster.answer.(fails := result == Refused);
      c := choice;
      ghost var s := cluster.Now();
      var next := AfterNormalWrite(cluster.Stores(), w, at, choice);
      if result == Answered {
        if cluster.uami.None? {
          cluster.uami := Some(Uami(cluster.uamiId, choice.clientId, choice.principalId, choice.tenantId, tags));
          cluster.fics := [];
        } else {
          cluster.uami := Some(cluster.uami.value.(tags := tags));
        }
      }
      Land(s, w, at, choice, next);
    }

    /** federatedCredentials.CreateOrUpdate; it fails when the identity is gone. */
    method PutCredential(w: Wi, at: NAt, tuple: Tuple) returns (result: CallResult, ghost c: Choice, ghost st: Store)
      requires Stands(w, at) && at.NFicPut? && tuple == NormalTuple(w, at.url)
      modifies cluster
      ensures Since(old(cluster.Sign()))
      ensures if result == Died then Crashed() else Landed(w, at, c, st) && !Fenced(st)
      ensures result == Answered <==> result != Died && !c.fails && st.uami.Some?
    {
      hide Run;
      hide Init;
      hide NormalTraced;
      hide Fenced;
      hide Upsert;
      Interfere();
      PendingIsUnfenced(w, at);
      st, c := cluster.Stores(), cluster.answer;
      result := *;
      if result == Died {
        Die();
        return;
      }
      var choice := cluster.answer.(fails := result == Refused);
      c := choice;
      if cluster.uami.None? {
        result := Refused;
      }
      ghost var s := cluster.Now();
      var next := AfterNormalWrite(cluster.Stores(), w, at, choice);
      if result == Answered {
        cluster.fics := Upsert(cluster.uamiId, w.id.ficName, tuple, cluster.fics);
      }
      Land(s, w, at, choice, next);
    }

    /** Create of the ServiceAccount; it fails when one has appeared. */
    method CreateServiceAccount(w: Wi, at: NAt, labels: Labels, annotations: Annotations)
      returns (result: CallResult, uid: Uid, ghost c: Choice, ghost st: Store)
      requires Stands(w, at) && at.NSaCreate?
      requires labels == DesiredLabels(w.id.uid, at.provenance == Created) &&
               annotations == DesiredAnnotations(at.m.clientId, at.m.tenantId)
      modifies cluster
      ensures Since(old(cluster.Sign()))
      ensures if result == Died then Crashed() else Landed(w, at, c, st) && !Fenced(st) && uid == c.uid
      ensures result == Answered <==> result != Died && !c.fails && st.sa.None?
      ensures result == Answered ==>
                cluster.sa.Some? && cluster.sa.value.uid == uid && cluster.sa.value.labels == labels && cluster.sa.value.annotations == annotations
    {
      hide Run;
      hide Init;
      hide NormalTraced;
      hide Fenced;
      Interfere();
      PendingIsUnfenced(w, at);
      st, c, uid := cluster.Stores(), cluster.answer, cluster.answer.uid;
      result := *;
      if result == Died {
        Die();
        return;
      }
      var choice := cluster.answer.(fails := result == Refused);
      c := choice;
      if cluster.sa.Some? {
        result := Refused;
      }
      ghost var s := cluster.Now();
      var next := AfterNormalWrite(cluster.Stores(), w, at, choice);
      if result == Answered {
        cluster.sa := Some(Sa(uid, cluster.clock, labels, annotations));
        cluster.clock := cluster.clock + 1;
      }
      Land(s, w, at, choice, next);
    }

    /** The unversioned merge patch of the ServiceAccount: it lands on whatever account is there now. */
    method PatchServiceAccount(w: Wi, at: NAt) returns (result: CallResult, uid: Uid, ghost c: Choice, ghost st: Store)
      requires Stands(w, at) && at.NSaPatch?
      modifies cluster
      ensures Since(old(cluster.Sign()))
      ensures if result == Died then Crashed() else Landed(w, at, c, st) && !Fenced(st)
      ensures result == Answered <==> result != Died && !c.fails && st.sa.Some?
      ensures result == Answered ==>
                uid == st.sa.value.uid && cluster.sa.Some? && cluster.sa.value.uid == uid &&
                cluster.sa.value.labels == st.sa.value.labels + at.labels &&
                cluster.sa.value.annotations == st.sa.value.annotations + at.annotations
      ensures cluster.trace.Quiet? ==> st == old(cluster.Stores())
    {
      hide Run;
      hide Init;
      hide NormalTraced;
      hide Fenced;
      uid := "";
      Interfere();
      PendingIsUnfenced(w, at);
      st, c := cluster.Stores(), cluster.answer;
      result := *;
      if result == Died {
        Die();
        return;
      }
      var choice := cluster.answer.(fails := result == Refused);
      c := choice;
      if cluster.sa.None? {
        result := Refused;
      }
      ghost var s := cluster.Now();
      var next := AfterNormalWrite(cluster.Stores(), w, at, choice);
      if result == Answered {
        var account := cluster.sa.value;
        uid := account.uid;
        cluster.sa := Some(account.(labels := account.labels + at.labels, annotations := account.annotations + at.annotations,
                                    version := cluster.clock));
        cluster.clock := cluster.clock + 1;
      }
      Land(s, w, at, choice, next);
    }

    /** patchWorkloadIdentityStatus: a versioned patch; a stale copy does not land. */
    method PatchStatus(w: Wi, patch: WiPatch) returns (landed: bool, ghost st: Store)
      requires Stands(w, NStatus(patch))
      modifies cluster
      ensures Since(old(cluster.Sign())) && Ended()
      ensures Crashed() || (Landed(w, NStatus(patch), cluster.answer, st) && (landed <==> Current(st, w)))
      ensures landed ==> !Crashed()
    {
      hide Run;
      hide Init;
      hide NormalTraced;
      hide ApplyWiPatch;
      Interfere();
      st := cluster.Stores();
      landed := *;
      if !landed {
        Die();
        return;
      }
      ghost var s := cluster.Now();
      landed := cluster.wi.Some? && cluster.wi.value.version == w.version;
      if landed {
        cluster.wi := Some(ApplyWiPatch(w, patch).(version := cluster.clock));
        cluster.clock := cluster.clock + 1;
      }
      Land(s, w, NStatus(patch), cluster.answer, NIdle);
    }

    /** The versioned update that adds the finalizer; `updated` is the copy the server returns. */
    method AddFinalizer(w: Wi) returns (ok: bool, updated: Wi)
      requires Stands(w, NAddFinalizer)
      modifies cluster
      ensures Since(old(cluster.Sign())) && Valid()
      ensures if ok then updated == w.(finalizer := true, version := updated.version) && cluster.wi == Some(updated) &&
                         cluster.normal == (if LockedWi(updated) then NIdle else NBusy(updated, NIssuer))
              else Ended()
    {
      hide Run;
      hide Init;
      hide NormalTraced;
      updated := w;
      Interfere();
      ok := *;
      if !ok {
        Die();
        return;
      }
      ghost var s := cluster.Now();
      var next := AfterNormalWrite(cluster.Stores(), w, NAddFinalizer, cluster.answer);
      ok := cluster.wi.Some? && cluster.wi.value.version == w.version;
      if ok {
        updated := w.(finalizer := true, version := cluster.clock);
        cluster.wi := Some(updated);
        cluster.clock := cluster.clock + 1;
      }
      Land(s, w, NAddFinalizer, cluster.answer, next);
    }

    /** The versioned update that removes the finalizer: the object goes away. */
    method RemoveFinalizer(w: Wi) returns (gone: bool)
      requires Stands(w, NRemoveFinalizer)
      modifies cluster
      ensures Since(old(cluster.Sign())) && Ended() && (gone ==> cluster.wi.None?)
    {
      hide Run;
      hide Init;
      hide NormalTraced;
      Interfere();
      gone := *;
      if !gone {
        Die();
        return;
      }
      ghost var s := cluster.Now();
      gone := cluster.wi.Some? && cluster.wi.value.version == w.version;
      if gone {
        cluster.wi := None;
      }
      Land(s, w, NRemoveFinalizer, cluster.answer, NIdle);
    }

    /** identities.Delete: the credentials go with the identity. */
    method DeleteIdentity(w: Wi) returns (ok: bool, ghost st: Store)
      requires Stands(w, NDeleteUami)
      modifies cluster
      ensures Since(old(cluster.Sign()))
      ensures if ok then Landed(w, NDeleteUami, cluster.answer, st) && !Fenced(st) else Crashed()
    {
      hide Run;
      hide Init;
      hide NormalTraced;
      hide Fenced;
      Interfere();
      PendingIsUnfenced(w, NDeleteUami);
      st := cluster.Stores();
      ok := *;
      if !ok {
        Die();
        return;
      }
      ghost var s := cluster.Now();
      cluster.uami := None;
      cluster.fics := [];
      Land(s, w, NDeleteUami, cluster.answer, NBusy(w, NDeleteSaGet));
    }

    method DeleteServiceAccount(w: Wi) returns (ok: bool, ghost st: Store)
      requires Stands(w, NDeleteSa)
      modifies cluster
      ensures Since(old(cluster.Sign()))
      ensures if ok then Landed(w, NDeleteSa, cluster.answer, st) && !Fenced(st) else Crashed()
    {
      hide Run;
      hide Init;
      hide NormalTraced;
      hide Fenced;
      Interfere();
      PendingIsUnfenced(w, NDeleteSa);
      st := cluster.Stores();
      ok := *;
      if !ok {
        Die();
        return;
      }
      ghost var s := cluster.Now();
      cluster.sa := None;
      Land(s, w, NDeleteSa, cluster.answer, NBusy(w, NRemoveFinalizer));
    }
  }
}
