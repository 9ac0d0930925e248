/** ServiceAccount provenance: written once per WorkloadIdentity, and decisive for deletion. */
module AccountTheorems {
  import opened OwnershipTags
  import opened Azure
  import opened Resources
  import opened Target
  import opened ServiceAccounts
  import opened Protocol
  import opened Invariant
  import opened Safety
  import opened SafetyTheorems

  // ---------------------------------------------------------------- write-once

  /** The WorkloadIdentity instance with UID i exists. */
  predicate Lives(st: Store, i: Uid) { st.wi.Some? && st.wi.value.id.uid == i }

  predicate Relates(st: Store, i: Uid, p: Provenance) { Lives(st, i) ==> Persisted(st.wi.value) == Some(p) }

  lemma WorkerKeepsProvenance(s: State, c: Choice, i: Uid)
    ensures var st' := StepWorker(s, c).st;
            Lives(st', i) ==> Lives(s.st, i) && Persisted(st'.wi.value) == Persisted(s.st.wi.value)
  {
    hide Read;
    hide AfterWrite;
    hide Transferred;
    hide Upsert;
    hide PatchConds;
    hide MergeTags;
    hide WithoutFence;
  }

  lemma NormalKeepsProvenance(s: State, c: Choice, i: Uid)
    requires Inv(s)
    ensures var st' := StepNormal(s, c).st;
            Lives(st', i) ==> Lives(s.st, i) && (Persisted(s.st.wi.value).Some? ==> Persisted(st'.wi.value) == Persisted(s.st.wi.value))
  {
    hide MarkersOk;
    hide EvidenceOk;
    hide RecordsOk;
    hide WorkerOk;
    hide Upsert;
    hide NormalRead;
    hide AfterNormalWrite;
    hide Unfenced;
    hide LockedWi;
  }

  lemma UsersKeepProvenance(s: State, a: Action, i: Uid)
    requires !a.WorkerCall? && !a.NormalCall? && i in s.st.used
    ensures var st' := Apply(s, a).st;
            Lives(st', i) ==> Lives(s.st, i) && Persisted(st'.wi.value) == Persisted(s.st.wi.value)
  {
    hide Enter;
    hide NormalEnter;
  }

  /** Once an instance has recorded Created or Adopted, nothing changes that record: no crash, no
      deletion or recreation of the ServiceAccount, no recovery. */
  lemma {:induction false} ProvenanceIsWriteOnce(s: State, more: seq<Action>, i: Uid, p: Provenance)
    requires Inv(s) && i in s.st.used && Relates(s.st, i, p)
    ensures Relates(Run(s, more).st, i, p) && Inv(Run(s, more)) && i in Run(s, more).st.used
    decreases |more|
  {
    hide Inv;
    hide Apply;
    if more != [] {
      var n := |more| - 1;
      ProvenanceIsWriteOnce(s, more[..n], i, p);
      var s1, a := Run(s, more[..n]), more[n];
      ActionKeeps(s1, a);
      UsedGrows(s1, a);
      ProvenanceStep(s1, a, i, p);
    }
  }

  lemma ProvenanceStep(s: State, a: Action, i: Uid, p: Provenance)
    requires Inv(s) && i in s.st.used && Relates(s.st, i, p)
    ensures Relates(Apply(s, a).st, i, p)
  {
    hide Persisted;
    match a
    case WorkerCall(c) => WorkerKeepsProvenance(s, c, i); hide StepWorker;
    case NormalCall(c) => NormalKeepsProvenance(s, c, i); hide StepNormal;
    case _ => UsersKeepProvenance(s, a, i); hide Apply;
  }

  /** The same over reachable states: what an instance has persisted it keeps for life. */
  lemma RecordedProvenanceIsKept(s0: State, run: seq<Action>, more: seq<Action>)
    requires Init(s0)
    requires var st := Run(s0, run).st; st.wi.Some? && Persisted(st.wi.value).Some?
    ensures var w, st' := Run(s0, run).st.wi.value, Run(Run(s0, run), more).st;
            Lives(st', w.id.uid) ==> Persisted(st'.wi.value) == Persisted(w)
  {
    ReachableIsSafe(s0, run);
    var s := Run(s0, run);
    assert s.st.wi.value.id.uid in s.st.used;
    hide Inv;
    hide Init;
    hide Run;
    ProvenanceIsWriteOnce(s, more, s.st.wi.value.id.uid, Persisted(s.st.wi.value).value);
  }

  // ---------------------------------------------------------------- deletion

  /** The read that precedes a deletion goes on to delete exactly when the account read was made for w. */
  lemma DeletionIsDecidedByOrigin(s: State, w: Wi, c: Choice)
    requires s.normal == NBusy(w, NDeleteSaGet)
    ensures Apply(s, NormalCall(c)).normal == NBusy(w, NDeleteSa) <==> s.st.sa.Some? && MadeFor(w, s.st.sa.value)
    ensures Apply(s, NormalCall(c)).st == s.st
  {
    if s.st.sa.Some? {
      DeletableIs(w, s.st.sa.value);
    }
    hide Deletable;
    hide MadeFor;
  }

  /** After k actions the reconcile of w read an account made for w. */
  ghost predicate DecidedAt(s0: State, run: seq<Action>, w: Wi, k: nat) {
    k < |run| && run[k].NormalCall? &&
    var s := Run(s0, run[..k]); s.normal == NBusy(w, NDeleteSaGet) && s.st.sa.Some? && MadeFor(w, s.st.sa.value)
  }

  lemma OnlyTheReadLeadsThere(s: State, a: Action, w: Wi)
    requires Apply(s, a).normal == NBusy(w, NDeleteSa) && s.normal != NBusy(w, NDeleteSa)
    ensures a.NormalCall? && s.normal == NBusy(w, NDeleteSaGet)
  {
    hide StepWorker;
    hide Classify;
    hide Inspect;
    hide DecideEnsure;
    hide FindFic;
    hide EqualFold;
    hide LockedWi;
    hide Deletable;
    hide NormalWrite;
    if a.WorkerCall? {
      WorkerLeavesNormal(s, a.c);
    }
  }

  lemma WorkerLeavesNormal(s: State, c: Choice)
    ensures StepWorker(s, c).normal == s.normal
  {
    hide Read;
    hide Write;
    hide AfterWrite;
  }

  /** A deletion that is pending was decided at such a read, in every run. */
  lemma {:induction false} DeletionWasDecided(s0: State, run: seq<Action>, w: Wi)
    requires Init(s0) && Run(s0, run).normal == NBusy(w, NDeleteSa)
    ensures exists k :: DecidedAt(s0, run, w, k)
    decreases |run|
  {
    hide Apply;
    hide MadeFor;
    if run == [] {
      assert false;
    } else {
      var n := |run| - 1;
      var s1 := Run(s0, run[..n]);
      if s1.normal == NBusy(w, NDeleteSa) {
        DeletionWasDecided(s0, run[..n], w);
        var k: nat :| DecidedAt(s0, run[..n], w, k);
        assert run[..n][..k] == run[..k];
        assert DecidedAt(s0, run, w, k);
      } else {
        OnlyTheReadLeadsThere(s1, run[n], w);
        DeletionIsDecidedByOrigin(s1, w, run[n].c);
        assert DecidedAt(s0, run, w, n);
      }
    }
  }

  /** Nobody but an outsider or the normal reconciler's deletion step removes the ServiceAccount, and
      that step only for a live instance whose relationship is not recorded Adopted, after it has
      read an account that was made for it. */
  lemma AdoptedAccountIsNeverDeleted(s0: State, run: seq<Action>, a: Action)
    requires Init(s0) && !a.EditServiceAccount?
    requires var s := Run(s0, run); s.st.sa.Some? && Apply(s, a).st.sa.None?
    ensures var s := Run(s0, run);
            a.NormalCall? && s.normal.NBusy? && s.normal.at == NDeleteSa && s.st.wi.Some? && s.st.wi.value.id == s.normal.w.id &&
            !(Recorded(s.st.wi.value) && s.st.wi.value.provenance == Some(Adopted)) && s.st.uami.None?
    ensures exists k :: DecidedAt(s0, run, Run(s0, run).normal.w, k)
  {
    ReachableIsSafe(s0, run);
    DeletedAccount(Run(s0, run), a);
    DeletionWasDecided(s0, run, Run(s0, run).normal.w);
    hide Init;
    hide Run;
    hide Inv;
    hide Apply;
    hide DecidedAt;
  }

  lemma DeletedAccount(s: State, a: Action)
    requires Inv(s) && !a.EditServiceAccount? && s.st.sa.Some? && Apply(s, a).st.sa.None?
    ensures a.NormalCall? && s.normal.NBusy? && s.normal.at == NDeleteSa && s.st.wi.Some? &&
            s.st.wi.value.id == s.normal.w.id
    ensures Persisted(s.st.wi.value) != Some(Adopted) && s.st.uami.None?
  {
    hide Global;
    hide WorkerOk;
    match a
    case WorkerCall(c) => WorkerKeepsAccount(s, c); hide StepWorker; hide NormalOk;
    case NormalCall(c) => hide NormalRead; hide AfterNormalWrite; hide Upsert; hide LockedWi;
    case _ => hide Enter; hide NormalEnter; hide NormalOk;
  }

  lemma WorkerKeepsAccount(s: State, c: Choice)
    ensures s.st.sa.Some? ==> StepWorker(s, c).st.sa.Some?
  {
    hide Read;
    hide AfterWrite;
    hide Transferred;
    hide Upsert;
    hide PatchConds;
    hide PatchTarget;
  }
}
