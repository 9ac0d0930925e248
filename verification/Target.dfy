/** Decisions about the recovery target
    (validateRecoveryControllerTarget and patchTargetRecoveryCondition of
    internal/controller/workloadidentityrecovery_target.go). */
module Target {
  import opened OwnershipTags
  import opened Resources

  datatype Verdict =
    | TargetOk | UidMismatch | SourceIsTarget | EvidenceChanged
    | NotActive | NotInProgress | TargetDeleting | NotCurrent

  function Validate(r: Recovery, w: Wi): Verdict {
    if w.id.uid != r.target then UidMismatch
    else if r.source == w.id.uid then SourceIsTarget
    else if w.evidence != Some(r.source) then EvidenceChanged
    else if w.ready.None? || w.ready.value.status != StatusFalse then NotActive
    else if r.started then
      if w.ready.value.reason != ReasonRecoveryInProgress then NotInProgress else TargetOk
    else if w.ready.value.reason == ReasonRecoveryInProgress then TargetOk
    else if w.deleting then TargetDeleting
    else if w.ready.value.gen != w.gen || w.ready.value.reason != ReasonRecoveryRequired then NotCurrent
    else TargetOk
  }

  /** The target waits for exactly this recovery: its evidence names the source, and either it is locked or,
      before mutation, it asks for recovery under its present spec and is not being deleted. */
  predicate Awaits(w: Wi, r: Recovery) {
    w.id.uid == r.target && r.source != r.target && w.evidence == Some(r.source) &&
    w.ready.Some? && w.ready.value.status == StatusFalse &&
    (w.ready.value.reason == ReasonRecoveryInProgress ||
     (!r.started && !w.deleting && w.ready.value.reason == ReasonRecoveryRequired && w.ready.value.gen == w.gen))
  }

  lemma ValidateIsExact(r: Recovery, w: Wi)
    ensures Validate(r, w) == TargetOk <==> Awaits(w, r)
  {
  }

  /** Whether patchTargetRecoveryCondition finds a target it may patch; otherwise it returns nil
      without having written anything. */
  predicate Patchable(r: Recovery, wi: Option<Wi>, from: set<Reason>) {
    wi.Some? && wi.value.id.key == r.key && wi.value.id.uid == r.target &&
    wi.value.evidence == Some(r.source) &&
    wi.value.ready.Some? && wi.value.ready.value.status == StatusFalse && wi.value.ready.value.reason in from
  }

  /** The target after the patch; an unchanged condition sends an empty patch and keeps the version. */
  function PatchTarget(r: Recovery, wi: Option<Wi>, from: set<Reason>, to: Reason, version: nat): Option<Wi> {
    if !Patchable(r, wi, from) then wi
    else
      var ready := Some(Ready(StatusFalse, to, wi.value.gen));
      if wi.value.ready == ready then wi else Some(wi.value.(ready := ready, version := version))
  }

  const LOCK_FROM := {ReasonRecoveryRequired, ReasonRecoveryInProgress}
  const RELEASE_FROM := {ReasonRecoveryInProgress}
}
