/** What every answer makes the recovery worker do, from the checkpoints, tags and fields it has read. */
module RecoverySteps {
  import opened OwnershipTags
  import opened Azure
  import opened Resources
  import opened ServiceAccounts
  import opened Protocol
  import opened Invariant
  import opened Vetting
  import Election

  // ---------------------------------------------------------------- the entry and the next checkpoint

  /** A live recovery that failed rests for good; a deleted one without the finalizer is left alone. Before
      its start a deleted recovery can only be cancelled; a complete one is only released. */
  lemma EntryDecides(r: Recovery, configured: bool)
    ensures var w := Enter(r, configured);
            (w == Idle <==> if r.deleting then !r.finalizer else r.finalizer && IsFailed(r) && !IsComplete(r)) &&
            (w.Busy? ==> w.u == r.uid && w.deletion == r.deleting) &&
            (w.Busy? && w.at == AddFinalizer <==> !r.deleting && !r.finalizer) &&
            (w.Busy? && w.at == ListForCancel <==> r.deleting && r.finalizer && !r.started) &&
            (w.Busy? && w.at == ReleaseCompleted(r.deleting) <==> r.finalizer && IsComplete(r) && (r.deleting ==> r.started)) &&
            (w.Busy? && w.at == ReadTarget <==>
               r.finalizer && !IsComplete(r) && configured && if r.deleting then r.started else !IsFailed(r)) &&
            (w.Busy? && w.at == PatchStatus(PatchBlocked) <==>
               r.finalizer && !IsComplete(r) && !configured && if r.deleting then r.started else !IsFailed(r))
  {
  }

  /** Over a valid target the checkpoints alone say what comes next. */
  lemma NextCheckpoint(r: Recovery, del: bool, t: Ident)
    ensures var w := Forward(r, del, t);
            w.Busy? && w.u == r.uid && w.deletion == del &&
            (w.at == PreIssuer(t) <==> !r.commitVerified && !r.started && r.plan.None?) &&
            (w.at == ListForStart <==> !r.commitVerified && !r.started && r.plan.Some?) &&
            (w.at == MarkGet(t) <==> !r.commitVerified && r.started && r.plan.Some?) &&
            (w.at == FinalizeGet(t) <==> r.commitVerified && r.plan.Some?) &&
            (w.at == PatchStatus(PatchBlocked) <==> (r.commitVerified || r.started) && r.plan.None?)
  {
  }

  /** The election lets exactly the winner start, and fails everybody else for good; a deleted recovery
      releases the target exactly if it wins. */
  lemma ElectionDecides(st: Store, u: Uid, del: bool, c: Choice)
    requires u in st.recs && Election.DistinctUids(st.recs.Values)
    ensures var won := Election.Wins(st.recs.Values, st.recs[u].source, st.recs[u]);
            Read(st, u, del, ListForStart, c) == Busy(u, del, if won then LockTarget else PatchStatus(PatchFailed)) &&
            Read(st, u, del, ListForCancel, c) == Busy(u, del, if won then ReleaseCancelled else RemoveFinalizer)
  {
    Election.ElectedIsEarliest(st.recs.Values, st.recs[u].source, st.recs[u]);
    hide Election.IsElected;
    hide Election.Wins;
  }

  // ---------------------------------------------------------------- the Azure stage

  /** The UAMI is the one that was planned, in every field, under the operator's tags for the target, and its
      owner and fence tags are those of stage s. */
  ghost predicate PlannedStage(st: Store, u: Uid, t: Ident, s: Stage)
    requires u in st.recs
  {
    var r := st.recs[u];
    st.uami.Some? && r.plan.Some? && BaseOwnership(t.key, st.uami.value.tags) && EqualFold(st.uami.value.id, st.uamiId) &&
    EqualFold(st.uami.value.id, r.plan.value.id) && st.uami.value.clientId == r.plan.value.clientId != "" &&
    st.uami.value.principalId == r.plan.value.principalId != "" && st.uami.value.tenantId == r.plan.value.tenantId != "" &&
    AtStage(Req(r), t.uid, st.uami.value, s)
  }

  lemma StageIsPlanned(st: Store, u: Uid, t: Ident, s: Stage)
    requires u in st.recs && WellFormed(Req(st.recs[u]), t.uid)
    ensures StageOf(st, u, t) == Some(s) <==> PlannedStage(st, u, t, s)
  {
    if st.uami.Some? {
      StagesAreDisjoint(Req(st.recs[u]), t.uid, st.uami.value);
    }
    hide RecoveryStage;
    hide AtStage;
    hide BaseOwnership;
    hide EqualFold;
  }

  /** The stage that the call at `at` accepts, and where it leads. */
  function Accepts(at: At, s: Stage, tags: Tags): Option<At>
    requires at.MarkGet? || at.MarkVerify? || at.FicGet? || at.CommitGet? || at.CommitVerify? || at.FinalizeGet? || at.FinalizeVerify?
  {
    match at
    case MarkGet(t) => Some(if s == NotStarted then MarkPut(t, tags) else FicGet(t))
    case MarkVerify(t) => if s == InProgress then Some(FicGet(t)) else None
    case FicGet(t) => if s == NotStarted then None else if s == InProgress then Some(FicPut(t)) else Some(FicVerify(t))
    case CommitGet(t) => if s == NotStarted then None else Some(CommitFics(t, s, tags))
    case CommitVerify(t) => if s == CommittedFenced then Some(CommitFicsAfter(t)) else None
    case FinalizeGet(t) => if s == CommittedFenced || s == Complete then Some(FinalizeFics(t, s, tags)) else None
    case FinalizeVerify(t) => if s == Complete then Some(FinalizeFicsAfter(t)) else None
  }

  /** Each read of the UAMI goes on exactly from the planned identity at a stage it accepts, and blocks
      otherwise: marking writes only an unfenced source, the credential is repaired only before the owner
      changes, and the commit and the finish go on only from their own stages. */
  lemma StageReadDecides(st: Store, u: Uid, del: bool, at: At, s: Stage, c: Choice)
    requires u in st.recs
    requires at.MarkGet? || at.MarkVerify? || at.FicGet? || at.CommitGet? || at.CommitVerify? || at.FinalizeGet? || at.FinalizeVerify?
    requires WellFormed(Req(st.recs[u]), at.t.uid)
    ensures PlannedStage(st, u, at.t, s) ==>
              Read(st, u, del, at, c) ==
                Busy(u, del, if Accepts(at, s, st.uami.value.tags).Some? then Accepts(at, s, st.uami.value.tags).value else PatchStatus(PatchBlocked))
    ensures (forall s' :: !PlannedStage(st, u, at.t, s')) ==> Read(st, u, del, at, c) == Busy(u, del, PatchStatus(PatchBlocked))
  {
    StageIsPlanned(st, u, at.t, s);
    if StageOf(st, u, at.t).Some? {
      StageIsPlanned(st, u, at.t, StageOf(st, u, at.t).value);
      assert StageOf(st, u, at.t).value == NotStarted || StageOf(st, u, at.t).value == InProgress ||
             StageOf(st, u, at.t).value == CommittedFenced || StageOf(st, u, at.t).value == Complete;
    }
    hide StageOf;
    hide PlannedStage;
  }

  // ---------------------------------------------------------------- the account

  /** The transfer writes only an account it may take over that does not carry everything yet; with no
      account there is nothing to transfer. */
  lemma TransferReadDecides(st: Store, u: Uid, del: bool, t: Ident, c: Choice)
    requires u in st.recs && st.recs[u].uid == u && st.recs[u].plan.Some? && WellFormed(Req(st.recs[u]), t.uid)
    ensures var r := st.recs[u];
            var w := Read(st, u, del, SaGet(t), c);
            (w == Busy(u, del, At.CommitRecovery(t, "")) <==> st.sa.None?) &&
            (w == Busy(u, del, PatchStatus(PatchBlocked)) <==> st.sa.Some? && !Takeable(st.sa.value, r.source, t.uid)) &&
            (st.sa.Some? && Takeable(st.sa.value, r.source, t.uid) ==>
               (!Taken(st.sa.value, t.uid, r.plan.value) ==> w == Busy(u, del, SaPut(t, st.sa.value))) &&
               (Taken(st.sa.value, t.uid, r.plan.value) && r.plan.value.clientId != "" && r.plan.value.tenantId != "" ==>
                  w == Busy(u, del, SaVerify(t, st.sa.value.uid))))
  {
    if st.sa.Some? {
      TakeableIs(st.recs[u].source, t.uid, st.sa.value);
      if Taken(st.sa.value, t.uid, st.recs[u].plan.value) && st.recs[u].plan.value.clientId != "" && st.recs[u].plan.value.tenantId != "" {
        TakenIsTransferred(t.uid, st.recs[u].plan.value, st.sa.value);
      }
      if Transferred(t.uid, st.recs[u].plan.value, st.sa.value) == st.sa.value {
        assert Taken(Transferred(t.uid, st.recs[u].plan.value, st.sa.value), t.uid, st.recs[u].plan.value);
      }
    }
    hide RecoverableSa;
    hide Takeable;
  }

  lemma TakenIsTransferred(target: Uid, plan: Plan, sa: Sa)
    requires Taken(sa, target, plan) && target != "" && plan.clientId != "" && plan.tenantId != ""
    ensures Transferred(target, plan, sa) == sa
  {
    assert (sa.labels + TransferLabels(target)).Keys == sa.labels.Keys;
    assert (sa.annotations + TransferAnnotations(plan)).Keys == sa.annotations.Keys;
  }

  lemma TakeableIs(source: Uid, target: Uid, sa: Sa)
    requires source != "" && target != "" && source != target
    ensures RecoverableSa(source, target, sa) <==> Takeable(sa, source, target)
  {
  }

  /** The account counts as transferred only if the very one that was taken still carries everything. */
  lemma TransferIsReadBack(st: Store, u: Uid, del: bool, t: Ident, saUid: Uid, c: Choice)
    requires u in st.recs && st.recs[u].uid == u && st.recs[u].plan.Some?
    ensures var w := Read(st, u, del, SaVerify(t, saUid), c);
            (w == Busy(u, del, At.CommitRecovery(t, saUid)) <==>
               st.sa.Some? && st.sa.value.uid == saUid && Taken(st.sa.value, t.uid, st.recs[u].plan.value)) &&
            (w == Idle <==> st.sa.None?) &&
            (w == Idle || w == Busy(u, del, At.CommitRecovery(t, saUid)) || w == Busy(u, del, PatchStatus(PatchBlocked)))
  {
  }

  // ---------------------------------------------------------------- the writes

  /** The value of each tag after the write at `at`, from the copy it was computed from. */
  function Tagged(at: At, r: Recovery, k: TagKey): string
    requires at.MarkPut? || at.CommitPut? || at.FinalizePut?
  {
    match at
    case MarkPut(t, tags) => if k == RecoveryUid then r.uid else if k == TargetUid then t.uid else TagValue(tags, k)
    case CommitPut(t, tags) => if k == OwnerUid then t.uid else if k == LastRecoveryUid then r.uid else TagValue(tags, k)
    case FinalizePut(t, tags) => if k == RecoveryUid || k == TargetUid then "" else TagValue(tags, k)
  }

  /** The three tag writes set or clear two tags each, keep every other tag of the copy and touch nothing
      else. */
  lemma TagWritesMean(st: Store, u: Uid, at: At)
    requires u in st.recs && st.uami.Some? && (at.MarkPut? || at.CommitPut? || at.FinalizePut?)
    ensures var st' := Write(st, u, at);
            st'.uami.Some? && st' == st.(uami := st'.uami) && st'.uami.value == st.uami.value.(tags := st'.uami.value.tags) &&
            (forall k :: TagValue(st'.uami.value.tags, k) == Tagged(at, st.recs[u], k)) &&
            (forall k: TagKey | k.Other? :: k in st'.uami.value.tags <==> k in at.tags)
  {
  }

  /** The credential write puts the planned trust under the configured name and touches nothing else. */
  lemma CredentialWriteMeans(st: Store, u: Uid, t: Ident)
    requires u in st.recs && st.uami.Some? && st.recs[u].plan.Some?
    ensures var st' := Write(st, u, FicPut(t));
            st' == st.(fics := st'.fics) &&
            FindFic(t.ficName, st'.fics).Some? && FindFic(t.ficName, st'.fics).value.tuple == Some(st.recs[u].plan.value.tuple) &&
            forall other: string | !EqualFold(other, t.ficName) :: FindFic(other, st'.fics) == FindFic(other, st.fics)
  {
    UpsertThenFind(st.uamiId, t.ficName, st.recs[u].plan.value.tuple, st.fics);
    hide Upsert;
    hide FindFic;
  }

  /** The writes to a record touch that record alone. */
  lemma RecordWritesMean(st: Store, u: Uid, at: At)
    requires u in st.recs && (at.AddFinalizer? || at.RemoveFinalizer? || at.PatchStatus?)
    ensures var st' := Write(st, u, at);
            st' == st.(recs := st'.recs) && (u in st'.recs <==> !at.RemoveFinalizer?) &&
            forall v | v != u :: (v in st'.recs <==> v in st.recs) && (v in st.recs ==> st'.recs[v] == st.recs[v])
    ensures at.AddFinalizer? ==> Write(st, u, at).recs[u] == st.recs[u].(finalizer := true)
  {
    hide ApplyPatch;
  }
}
