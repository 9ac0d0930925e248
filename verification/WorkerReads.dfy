/** Every read-only call of the recovery worker keeps the invariant: the branch taken on what was
    read leads to a control point whose assertion holds. */
module WorkerReads {
  import opened OwnershipTags
  import opened Azure
  import opened Resources
  import opened Target
  import opened ServiceAccounts
  import opened Protocol
  import opened Invariant

  lemma EnterKeeps(st: Store, u: Uid, configured: bool)
    requires Global(st) && u in st.recs
    ensures WorkerOk(st, Enter(st.recs[u], configured))
  {
    var r := st.recs[u];
    assert RecoveryOk(r) && r.uid == u;
  }

  lemma RejectingKeeps(st: Store, u: Uid, del: bool)
    requires u in st.recs && st.recs[u].uid == u && WorkerAt(st, u, del, ReadTarget)
    ensures WorkerOk(st, Rejecting(st.recs[u], del)) && WorkerOk(st, Blocking(u, del))
  {
  }

  lemma ForwardKeeps(st: Store, u: Uid, del: bool, t: Ident)
    requires u in st.recs && st.recs[u].uid == u && (del ==> st.recs[u].deleting)
    requires Steady(st, st.recs[u]) && st.recs[u].target in st.local && st.wi.Some? && st.wi.value.id == t
    requires st.recs[u].started ==> st.recs[u].plan.Some? && LockHeld(st, st.recs[u])
    requires st.recs[u].commitVerified ==> st.recs[u].started
    requires AtSource(st, st.recs[u].source) || SomeStarted(st.recs, st.recs[u].source)
    requires t.uid != st.recs[u].source
    ensures WorkerOk(st, Forward(st.recs[u], del, t))
  {
    hide AtSource;
    hide SomeStarted;
    hide LockHeld;
  }

  lemma ReadTargetKeeps(st: Store, u: Uid, del: bool)
    requires Global(st) && u in st.recs && WorkerAt(st, u, del, ReadTarget)
    ensures WorkerOk(st, AfterReadTarget(st, st.recs[u], del))
  {
    var r := st.recs[u];
    assert RecoveryOk(r) && r.uid == u;
    RejectingKeeps(st, u, del);
    if r.target in st.local && st.wi.Some? && st.wi.value.id.key == r.key && Validate(r, st.wi.value) == TargetOk {
      StartableAtTarget(st, u);
      assert r.started ==> LockHeld(st, r);
      hide Global;
      ForwardKeeps(st, u, del, st.wi.value.id);
    }
    hide Global;
    hide WorkerOk;
    hide Forward;
    hide Rejecting;
    hide Validate;
  }

  lemma StartableAtTarget(st: Store, u: Uid)
    requires Global(st) && u in st.recs && st.wi.Some? && st.wi.value.id.key == st.recs[u].key
    requires Validate(st.recs[u], st.wi.value) == TargetOk
    ensures AtSource(st, st.recs[u].source) || SomeStarted(st.recs, st.recs[u].source)
    ensures st.wi.value.id.uid != st.recs[u].source
  {
    var r := st.recs[u];
    if !AtSource(st, r.source) {
      assert EvidenceOk(st);
      if r.started {
        assert st.recs[u].started;
      } else {
        var v :| HoldsLockOf(st, v);
        assert v in st.recs && st.recs[v].source == r.source && st.recs[v].started;
      }
    }
  }

  lemma ElsewhereKeeps(st: Store, u: Uid, del: bool, o: Outcome)
    requires Global(st) && u in st.recs && WorkerAt(st, u, del, Elsewhere)
    ensures WorkerOk(st, AfterElsewhere(st.recs[u], del, o))
  {
    var r := st.recs[u];
    assert RecoveryOk(r) && r.uid == u;
  }

  lemma PreflightKeeps(st: Store, u: Uid, del: bool, at: At, c: Choice)
    requires Global(st) && u in st.recs && WorkerAt(st, u, del, at)
    requires at.PreIssuer? || at.PreUami? || at.PreFics? || at.PreSa?
    ensures WorkerOk(st, Read(st, u, del, at, c))
  {
    var r := st.recs[u];
    assert RecoveryOk(r) && r.uid == u;
  }

  lemma ElectionKeeps(st: Store, u: Uid, del: bool, at: At, c: Choice)
    requires Global(st) && u in st.recs && WorkerAt(st, u, del, at)
    requires at.ListForStart? || at.ListForCancel?
    ensures WorkerOk(st, Read(st, u, del, at, c))
  {
    var r := st.recs[u];
    assert RecoveryOk(r) && r.uid == u;
    if Elected(st.recs, u) {
      ElectedMeansNoneStarted(st, u);
    }
  }

  /** An elected recovery that has not started has no started rival. */
  lemma ElectedMeansNoneStarted(st: Store, u: Uid)
    requires Global(st) && u in st.recs && !st.recs[u].started && Elected(st.recs, u)
    ensures NoneStarted(st.recs, st.recs[u].source)
  {
    assert RecoveryOk(st.recs[u]);
    forall v | v in st.recs && st.recs[v].source == st.recs[u].source
      ensures !st.recs[v].started
    {
      assert st.recs[v] in st.recs.Values;
    }
  }

  lemma StageFacts(st: Store, u: Uid, t: Ident)
    requires Global(st) && u in st.recs && Locked(st, st.recs[u], t)
    ensures StageOf(st, u, t) == Some(Complete) ==> st.recs[u].commitVerified
    ensures StageOf(st, u, t).Some? ==> AtStage(Req(st.recs[u]), t.uid, st.uami.value, StageOf(st, u, t).value)
  {
    assert RecoveryOk(st.recs[u]);
    if StageOf(st, u, t).Some? {
      StagesAreDisjoint(Req(st.recs[u]), t.uid, st.uami.value);
    }
  }

  lemma MarkReadKeeps(st: Store, u: Uid, del: bool, t: Ident)
    requires u in st.recs && (del ==> st.recs[u].deleting) && Advancing(st, st.recs[u], t)
    ensures WorkerOk(st, AfterMarkGet(st, u, del, t))
    ensures WorkerOk(st, AfterVerify(st, u, del, t, InProgress, FicGet(t)))
    ensures st.recs[u].uid == u ==> WorkerOk(st, AfterFicGet(st, u, del, t))
    ensures WorkerOk(st, AfterExactFics(st, u, del, t, SaGet(t)))
  {
    hide Load;
    hide LockHeld;
    hide Steady;
  }

  lemma AccountReadKeeps(st: Store, u: Uid, del: bool, t: Ident, saUid: Uid)
    requires u in st.recs && st.recs[u].uid == u && (del ==> st.recs[u].deleting) && Advancing(st, st.recs[u], t)
    ensures WorkerOk(st, AfterSaGet(st, st.recs[u], del, t))
    ensures WorkerOk(st, AfterSaVerify(st, st.recs[u], del, t, saUid))
    ensures WorkerOk(st, AfterCommitSa(st, st.recs[u], del, t, saUid))
  {
    hide FieldsMatch;
    hide RecoverableSa;
    hide Transferred;
    hide LockHeld;
  }

  lemma CommitReadKeeps(st: Store, u: Uid, del: bool, t: Ident, saUid: Uid)
    requires u in st.recs && st.recs[u].uid == u && (del ==> st.recs[u].deleting) && Advancing(st, st.recs[u], t)
    ensures WorkerOk(st, Busy(u, del, CommitTarget(t, saUid)))
    ensures WorkerOk(st, AfterCommitTarget(st, st.recs[u], del, saUid))
  {
    hide Validate;
    hide LockedWi;
  }

  lemma CommitGetKeeps(st: Store, u: Uid, del: bool, t: Ident)
    requires u in st.recs && (del ==> st.recs[u].deleting) && Advancing(st, st.recs[u], t)
    requires StageOf(st, u, t) != Some(Complete)
    ensures WorkerOk(st, AfterCommitGet(st, u, del, t))
  {
  }

  /** At stage CommittedFenced the tags are what the CommitVerified patch relies on. */
  lemma CommittedKeeps(st: Store, u: Uid, del: bool, t: Ident)
    requires u in st.recs && st.recs[u].uid == u && (del ==> st.recs[u].deleting) && Advancing(st, st.recs[u], t)
    requires WellFormed(Req(st.recs[u]), st.recs[u].target) && StageOf(st, u, t) == Some(CommittedFenced)
    ensures WorkerAt(st, u, del, PatchStatus(PatchCommitVerified))
  {
    StagesAreDisjoint(Req(st.recs[u]), t.uid, st.uami.value);
    assert AtStage(Req(st.recs[u]), t.uid, st.uami.value, CommittedFenced);
  }

  lemma CommitFicsKeeps(st: Store, u: Uid, del: bool, t: Ident, s: Stage, tags: Tags)
    requires u in st.recs && st.recs[u].uid == u && WellFormed(Req(st.recs[u]), st.recs[u].target)
    requires WorkerAt(st, u, del, CommitFics(t, s, tags))
    ensures WorkerOk(st, AfterCommitFics(st, u, del, t, s, tags))
  {
    hide Load;
    hide ExactFics;
    hide LockHeld;
    hide Steady;
    if s == CommittedFenced {
      CommittedKeeps(st, u, del, t);
    }
  }

  lemma CommitVerifyKeeps(st: Store, u: Uid, del: bool, t: Ident)
    requires u in st.recs && st.recs[u].uid == u && WellFormed(Req(st.recs[u]), st.recs[u].target)
    requires (del ==> st.recs[u].deleting) && Advancing(st, st.recs[u], t)
    ensures WorkerOk(st, AfterVerify(st, u, del, t, CommittedFenced, CommitFicsAfter(t)))
    ensures StageOf(st, u, t) == Some(CommittedFenced) ==>
              WorkerOk(st, AfterExactFics(st, u, del, t, PatchStatus(PatchCommitVerified)))
  {
    if StageOf(st, u, t) == Some(CommittedFenced) {
      CommittedKeeps(st, u, del, t);
    }
  }

  lemma CompleteIsUnfenced(st: Store, u: Uid, t: Ident)
    requires u in st.recs && st.recs[u].uid == u && WellFormed(Req(st.recs[u]), t.uid)
    requires StageOf(st, u, t) == Some(Complete)
    ensures NotFencedBy(st, u)
  {
    StagesAreDisjoint(Req(st.recs[u]), t.uid, st.uami.value);
    assert AtStage(Req(st.recs[u]), t.uid, st.uami.value, Complete);
  }

  lemma FinalizeReadKeeps(st: Store, u: Uid, del: bool, t: Ident)
    requires u in st.recs && st.recs[u].uid == u && WellFormed(Req(st.recs[u]), st.recs[u].target)
    requires (del ==> st.recs[u].deleting) && Finalizing(st, st.recs[u], t)
    requires StageOf(st, u, t) == Some(Complete) ==> NotFencedBy(st, u)
    ensures WorkerOk(st, AfterFinalizeGet(st, u, del, t))
    ensures NotFencedBy(st, u) ==> WorkerOk(st, AfterVerify(st, u, del, t, Complete, FinalizeFicsAfter(t)))
    ensures NotFencedBy(st, u) ==> WorkerOk(st, AfterExactFics(st, u, del, t, PatchStatus(PatchComplete)))
  {
    hide Load;
    hide ExactFics;
    hide LockHeld;
  }

  lemma FinalizeFicsKeeps(st: Store, u: Uid, del: bool, t: Ident, s: Stage, tags: Tags)
    requires u in st.recs && st.recs[u].uid == u && WorkerAt(st, u, del, FinalizeFics(t, s, tags))
    ensures WorkerOk(st, AfterFinalizeFics(st, u, del, t, s, tags))
  {
    hide Load;
    hide ExactFics;
    hide LockHeld;
  }

  predicate ReadsWhileAdvancing(at: At) {
    at.MarkGet? || at.MarkVerify? || at.FicGet? || at.FicVerify? || at.SaGet? || at.SaVerify? ||
    at.CommitRecovery? || at.CommitTarget? || at.CommitSa? || at.CommitGet? || at.CommitFics? || at.CommitVerify? || at.CommitFicsAfter?
  }

  predicate ReadsWhileFinalizing(at: At) {
    at.FinalizeGet? || at.FinalizeFics? || at.FinalizeVerify? || at.FinalizeFicsAfter?
  }

  lemma InsideLockedRegion(st: Store, u: Uid, del: bool, at: At)
    requires u in st.recs && WorkerAt(st, u, del, at)
    ensures del ==> st.recs[u].deleting
    ensures ReadsWhileAdvancing(at) ==> Advancing(st, st.recs[u], at.t)
    ensures ReadsWhileFinalizing(at) ==> Finalizing(st, st.recs[u], at.t)
    ensures at.FinalizeVerify? || at.FinalizeFicsAfter? ==> NotFencedBy(st, u)
    ensures at.CommitFicsAfter? ==> StageOf(st, u, at.t) == Some(CommittedFenced)
  {
    hide Load;
    hide LockHeld;
    hide Steady;
  }

  lemma AdvanceKeeps(st: Store, u: Uid, del: bool, at: At, c: Choice)
    requires Global(st) && u in st.recs && WorkerAt(st, u, del, at) && ReadsWhileAdvancing(at)
    ensures WorkerOk(st, Read(st, u, del, at, c))
  {
    assert RecoveryOk(st.recs[u]) && st.recs[u].uid == u;
    InsideLockedRegion(st, u, del, at);
    StageFacts(st, u, at.t);
    hide Global;
    hide WorkerAt;
    hide WorkerOk;
    hide Advancing;
    hide StageOf;
    match at
    case MarkGet(t) => MarkReadKeeps(st, u, del, t);
    case MarkVerify(t) => MarkReadKeeps(st, u, del, t);
    case FicGet(t) => MarkReadKeeps(st, u, del, t);
    case FicVerify(t) => MarkReadKeeps(st, u, del, t);
    case SaGet(t) => AccountReadKeeps(st, u, del, t, "");
    case SaVerify(t, saUid) => AccountReadKeeps(st, u, del, t, saUid);
    case CommitRecovery(t, saUid) => CommitReadKeeps(st, u, del, t, saUid);
    case CommitTarget(t, saUid) => CommitReadKeeps(st, u, del, t, saUid);
    case CommitSa(t, saUid) => AccountReadKeeps(st, u, del, t, saUid);
    case CommitGet(t) => CommitGetKeeps(st, u, del, t);
    case CommitFics(t, s, tags) => CommitFicsKeeps(st, u, del, t, s, tags);
    case CommitVerify(t) => CommitVerifyKeeps(st, u, del, t);
    case CommitFicsAfter(t) => CommitVerifyKeeps(st, u, del, t);
  }

  lemma FinalizeKeeps(st: Store, u: Uid, del: bool, at: At, c: Choice)
    requires Global(st) && u in st.recs && WorkerAt(st, u, del, at) && ReadsWhileFinalizing(at)
    ensures WorkerOk(st, Read(st, u, del, at, c))
  {
    hide WorkerAt;
    hide WorkerOk;
    hide StageOf;
    hide MarkersOk;
    hide EvidenceOk;
    hide SourceHeld;
    hide CondsOk;
    assert RecoveryOk(st.recs[u]) && st.recs[u].uid == u;
    hide Global;
    InsideLockedRegion(st, u, del, at);
    if StageOf(st, u, at.t) == Some(Complete) {
      CompleteIsUnfenced(st, u, at.t);
    }
    match at
    case FinalizeFics(t, s, tags) => FinalizeFicsKeeps(st, u, del, t, s, tags);
    case FinalizeGet(t) => FinalizeReadKeeps(st, u, del, t);
    case FinalizeVerify(t) => FinalizeReadKeeps(st, u, del, t);
    case FinalizeFicsAfter(t) => FinalizeReadKeeps(st, u, del, t);
  }

  lemma WorkerReadKeeps(st: Store, u: Uid, del: bool, at: At, c: Choice)
    requires Global(st) && u in st.recs && WorkerAt(st, u, del, at) && !IsWrite(at)
    ensures WorkerOk(st, Read(st, u, del, at, c))
  {
    hide Global;
    hide WorkerAt;
    hide WorkerOk;
    match at
    case ReadTarget => ReadTargetKeeps(st, u, del);
    case Elsewhere => ElsewhereKeeps(st, u, del, c.outcome);
    case PreIssuer(_) => PreflightKeeps(st, u, del, at, c);
    case PreUami(_, _) => PreflightKeeps(st, u, del, at, c);
    case PreFics(_, _) => PreflightKeeps(st, u, del, at, c);
    case PreSa(_, _) => PreflightKeeps(st, u, del, at, c);
    case ListForStart => ElectionKeeps(st, u, del, at, c);
    case ListForCancel => ElectionKeeps(st, u, del, at, c);
    case MarkGet(_) => AdvanceKeeps(st, u, del, at, c);
    case MarkVerify(_) => AdvanceKeeps(st, u, del, at, c);
    case FicGet(_) => AdvanceKeeps(st, u, del, at, c);
    case FicVerify(_) => AdvanceKeeps(st, u, del, at, c);
    case SaGet(_) => AdvanceKeeps(st, u, del, at, c);
    case SaVerify(_, _) => AdvanceKeeps(st, u, del, at, c);
    case CommitRecovery(_, _) => AdvanceKeeps(st, u, del, at, c);
    case CommitTarget(_, _) => AdvanceKeeps(st, u, del, at, c);
    case CommitSa(_, _) => AdvanceKeeps(st, u, del, at, c);
    case CommitGet(_) => AdvanceKeeps(st, u, del, at, c);
    case CommitFics(_, _, _) => AdvanceKeeps(st, u, del, at, c);
    case CommitVerify(_) => AdvanceKeeps(st, u, del, at, c);
    case CommitFicsAfter(_) => AdvanceKeeps(st, u, del, at, c);
    case FinalizeGet(_) => FinalizeKeeps(st, u, del, at, c);
    case FinalizeFics(_, _, _) => FinalizeKeeps(st, u, del, at, c);
    case FinalizeVerify(_) => FinalizeKeeps(st, u, del, at, c);
    case FinalizeFicsAfter(_) => FinalizeKeeps(st, u, del, at, c);
  }
}
