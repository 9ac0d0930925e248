/** The Kubernetes objects of the protocol (api/v1alpha1) and the pure functions on their status. */
module Resources {
  import opened OwnershipTags
  import opened Azure

  datatype CondStatus = StatusTrue | StatusFalse | StatusUnknown

  datatype Reason =
    | ReasonRecoveryRequired | ReasonRecoveryInProgress
    | ReasonRecoveryCompleted | ReasonRecoveryCancelled
    | ReasonOther(name: string)

  /** The Ready condition of a WorkloadIdentity. */
  datatype Ready = Ready(status: CondStatus, reason: Reason, gen: nat)

  datatype Provenance = Created | Adopted

  /** A WorkloadIdentity. Every change takes a fresh resource version. */
  datatype Wi = Wi(
    id: Ident,
    version: nat,
    gen: nat,
    deleting: bool,
    finalizer: bool,
    deletePolicy: bool,
    evidence: Option<Uid>,
    ready: Option<Ready>,
    subject: string,
    saUid: Uid,
    provenance: Option<Provenance>,
    recorded: Option<string>)

  datatype CondType = Progressing | Blocked | Completed | Failed

  /** Condition type to "is True"; a type without a condition is absent. */
  type Conds = map<CondType, bool>

  /** A WorkloadIdentityRecovery. */
  datatype Recovery = Recovery(
    uid: Uid,
    name: string,
    created: int,
    source: Uid,
    key: Key,
    target: Uid,
    finalizer: bool,
    deleting: bool,
    started: bool,
    commitVerified: bool,
    plan: Option<Plan>,
    conds: Conds)

  predicate CondTrue(c: Conds, t: CondType) { t in c && c[t] }

  predicate IsComplete(r: Recovery) { CondTrue(r.conds, Completed) }
  predicate IsFailed(r: Recovery) { CondTrue(r.conds, Failed) }
  predicate IsTerminal(r: Recovery) { IsComplete(r) || IsFailed(r) }

  function Req(r: Recovery): Request { Request(r.uid, r.source) }

  const PREFIX := "system:serviceaccount:"

  function Subject(t: Ident): string {
    PREFIX + t.key.ns + ":" + t.saName
  }

  /** The six mutate closures handed to patchRecoveryStatus. */
  datatype StatusPatch = PatchBlocked | PatchFailed | PatchPlan(plan: Plan) | PatchStarted | PatchCommitVerified | PatchComplete

  function PatchConds(c: Conds, p: StatusPatch): Conds {
    match p
    case PatchBlocked => c[Blocked := true][Progressing := false] - {Completed, Failed}
    case PatchFailed => c[Failed := true][Progressing := false] - {Blocked, Completed}
    case PatchPlan(_) => c[Progressing := true] - {Blocked}
    case PatchStarted => c[Progressing := true] - {Blocked}
    case PatchCommitVerified => c[Progressing := true] - {Blocked, Completed, Failed}
    case PatchComplete => c[Completed := true][Progressing := false] - {Blocked, Failed}
  }

  function ApplyPatch(r: Recovery, p: StatusPatch): Recovery {
    var r' := r.(conds := PatchConds(r.conds, p));
    match p
    case PatchBlocked => r'
    case PatchFailed => r'
    case PatchPlan(plan) => r'.(plan := Some(plan))
    case PatchStarted => r'.(started := true)
    case PatchCommitVerified => r'.(commitVerified := true)
    case PatchComplete => r'
  }

  /** What each status patch makes of a record: which of the four conditions is True after it, and which
      checkpoint it sets; nothing else of the record changes. */
  lemma PatchesMean(r: Recovery, p: StatusPatch)
    ensures var r' := ApplyPatch(r, p);
            (CondTrue(r'.conds, Blocked) <==> p.PatchBlocked?) &&
            (IsFailed(r') <==> p.PatchFailed? || (IsFailed(r) && (p.PatchPlan? || p.PatchStarted?))) &&
            (IsComplete(r') <==> p.PatchComplete? || (IsComplete(r) && (p.PatchPlan? || p.PatchStarted?))) &&
            (CondTrue(r'.conds, Progressing) <==> p.PatchPlan? || p.PatchStarted? || p.PatchCommitVerified?)
    ensures var r' := ApplyPatch(r, p);
            (r'.started <==> r.started || p.PatchStarted?) && (r'.commitVerified <==> r.commitVerified || p.PatchCommitVerified?) &&
            r'.plan == (if p.PatchPlan? then Some(p.plan) else r.plan) &&
            r' == r.(conds := r'.conds, started := r'.started, commitVerified := r'.commitVerified, plan := r'.plan)
  {
  }

  /** A Subject names one ServiceAccount: neither part of the name has a colon. */
  lemma SubjectNamesOneAccount(a: Ident, b: Ident)
    requires ':' !in a.key.ns && ':' !in b.key.ns && Subject(a) == Subject(b)
    ensures a.key.ns == b.key.ns && a.saName == b.saName
  {
    ColonPosition(a);
    ColonPosition(b);
    var n := |PREFIX|;
    assert |a.key.ns| == |b.key.ns|;
    assert a.key.ns == Subject(a)[n..n + |a.key.ns|] && b.key.ns == Subject(b)[n..n + |b.key.ns|];
    assert a.saName == Subject(a)[n + |a.key.ns| + 1..] && b.saName == Subject(b)[n + |b.key.ns| + 1..];
  }

  lemma ColonPosition(t: Ident)
    requires ':' !in t.key.ns
    ensures |Subject(t)| > |PREFIX| + |t.key.ns| && Subject(t)[|PREFIX| + |t.key.ns|] == ':'
    ensures forall i | |PREFIX| <= i < |PREFIX| + |t.key.ns| :: Subject(t)[i] != ':'
  {
    forall i | |PREFIX| <= i < |PREFIX| + |t.key.ns|
      ensures Subject(t)[i] != ':'
    {
      assert Subject(t)[i] == t.key.ns[i - |PREFIX|] && t.key.ns[i - |PREFIX|] in t.key.ns;
    }
  }

  /** workloadIdentityRecoveryReason == RecoveryInProgress. */
  predicate LockedWi(w: Wi) {
    w.evidence.Some? && w.ready.Some? && w.ready.value.status == StatusFalse &&
    w.ready.value.reason == ReasonRecoveryInProgress
  }

  /** workloadIdentityRecoveryStateIsActive. */
  predicate RecoveryStateActive(w: Wi) {
    w.evidence.Some? && w.ready.Some? && w.ready.value.status == StatusFalse &&
    (w.ready.value.reason == ReasonRecoveryRequired || w.ready.value.reason == ReasonRecoveryInProgress)
  }
}
