/** The history of every reconcile of a recovery: past each check it has made that check itself, at a read
    of its own, and has seen what the check demands. */
module Checks {
  import opened OwnershipTags
  import opened Azure
  import opened Resources
  import opened Target
  import opened ServiceAccounts
  import opened Protocol
  import opened Invariant
  import opened WorkerWrites
  import opened Safety
  import opened FenceTheorems
  import opened LockTheorems
  import opened Origin
  import opened SafetyTheorems
  import opened Vetting
  import opened RecoverySteps
  import Election

  datatype Check =
    | TargetAwaited(t: Ident)
    | IdentityPlanned(plan: Plan)
    | CredentialsRecoverable
    | AccountTakeable
    | ElectionWon
    | Marked
    | CredentialReadBack
    | AccountReadBack(saUid: Uid)
    | AccountStillTaken
    | CredentialsAsPlanned
    | OwnerReadBack
    | CommittedCredentialsReadBack
    | FenceReadBack
    | FinishedCredentialsReadBack

  /** The control points that speak about a target. */
  predicate Concerns(at: At, t: Ident) {
    !at.AddFinalizer? && !at.ReadTarget? && !at.Elsewhere? && !at.ListForStart? && !at.LockTarget? && !at.ListForCancel? &&
    !at.ReleaseCancelled? && !at.ReleaseCompleted? && !at.RemoveFinalizer? && !at.PatchStatus? && at.t == t
  }

  predicate Committed(s: Stage) { s == CommittedFenced || s == Complete }

  /** From the first read of the credential on. */
  predicate Advances(at: At) {
    at.FicGet? || at.FicPut? || at.FicVerify? || Takes(at)
  }

  /** From the first read of the account on. */
  predicate Takes(at: At) {
    at.SaGet? || at.SaPut? || at.SaVerify? || at.CommitRecovery? || at.CommitTarget? || at.CommitSa? || Commits(at)
  }

  /** From the read of the UAMI in the commit on. */
  predicate Commits(at: At) {
    at.CommitGet? || at.CommitFics? || at.CommitPut? || at.CommitVerify? || at.CommitFicsAfter? || at == PatchStatus(PatchCommitVerified)
  }

  /** The control points past a check. */
  predicate Past(k: Check, at: At) {
    match k
    case TargetAwaited(t) => Concerns(at, t)
    case IdentityPlanned(plan) =>
      (at.PreFics? && at.plan == plan) || (at.PreSa? && at.plan == plan) || at == PatchStatus(PatchPlan(plan))
    case CredentialsRecoverable => at.PreSa? || (at.PatchStatus? && at.patch.PatchPlan?)
    case AccountTakeable => at.PatchStatus? && at.patch.PatchPlan?
    case ElectionWon => at.LockTarget? || at == PatchStatus(PatchStarted) || at.ReleaseCancelled?
    case Marked => Advances(at)
    case CredentialReadBack => Takes(at)
    case AccountReadBack(saUid) => (at.CommitRecovery? || at.CommitTarget? || at.CommitSa?) && at.saUid == saUid
    case AccountStillTaken => Commits(at)
    case CredentialsAsPlanned =>
      at.CommitPut? || at.CommitVerify? || at.CommitFicsAfter? || at == PatchStatus(PatchCommitVerified) ||
      at.FinalizePut? || at.FinalizeVerify? || at.FinalizeFicsAfter? || at == PatchStatus(PatchComplete)
    case OwnerReadBack =>
      (at.CommitFics? && Committed(at.stage)) || at.CommitFicsAfter? || at == PatchStatus(PatchCommitVerified)
    case CommittedCredentialsReadBack => at == PatchStatus(PatchCommitVerified)
    case FenceReadBack =>
      (at.FinalizeFics? && at.stage == Complete) || at.FinalizeFicsAfter? || at == PatchStatus(PatchComplete)
    case FinishedCredentialsReadBack => at == PatchStatus(PatchComplete)
  }

  /** The UAMI, and the trust preflight wants on it, are what the plan says; it carries the operator's tags for
      the target's logical identity and is at a stage of this recovery. */
  ghost predicate PlannedAt(st: Store, r: Recovery, t: Ident, url: string, plan: Plan) {
    st.uami.Some? && EqualFold(st.uami.value.id, st.uamiId) && BaseOwnership(t.key, st.uami.value.tags) &&
    plan.id == st.uami.value.id && plan.clientId == st.uami.value.clientId != "" &&
    plan.principalId == st.uami.value.principalId != "" && plan.tenantId == st.uami.value.tenantId != "" &&
    plan.tuple == Tuple(url, "system:serviceaccount:" + t.key.ns + ":" + t.saName, ["api://AzureADTokenExchange"]) &&
    exists s :: AtStage(Req(r), t.uid, st.uami.value, s)
  }

  /** Exactly one credential: the configured one, with the planned tuple. */
  predicate AsPlanned(st: Store, t: Ident, plan: Plan) {
    |st.fics| == 1 && IsTheCredential(st.uamiId, t, st.fics[0]) && st.fics[0].tuple == Some(plan.tuple)
  }

  predicate CredentialRead(st: Store, u: Uid, t: Ident)
    requires u in st.recs
  {
    st.uami.Some? && st.recs[u].plan.Some? && AsPlanned(st, t, st.recs[u].plan.value)
  }

  /** The account just transferred is there and carries everything. */
  predicate ReadBack(st: Store, target: Uid, plan: Plan, saUid: Uid) {
    st.sa.Some? && st.sa.value.uid == saUid && Taken(st.sa.value, target, plan)
  }

  /** The account of the transfer is there as it was left, or there still is none. */
  predicate StillTaken(st: Store, target: Uid, plan: Plan, saUid: Uid) {
    if saUid == "" then st.sa.None? else st.sa.Some? && st.sa.value.uid == saUid && Taken(st.sa.value, target, plan)
  }

  /** The read at `at` is the one that makes check k for recovery u, and the stores pass it. */
  ghost predicate Passes(k: Check, st: Store, u: Uid, at: At)
    requires u in st.recs
  {
    var r := st.recs[u];
    match k
    case TargetAwaited(t) =>
      (at.ReadTarget? || at.CommitTarget?) && st.wi.Some? && st.wi.value.id == t && t.key == r.key && Awaits(st.wi.value, r)
    case IdentityPlanned(plan) => at.PreUami? && PlannedAt(st, r, at.t, at.url, plan)
    case CredentialsRecoverable =>
      at.PreFics? && st.uami.Some? && (st.fics == [] || (|st.fics| == 1 && IsTheCredential(st.uamiId, at.t, st.fics[0])))
    case AccountTakeable => at.PreSa? && (st.sa.Some? ==> Takeable(st.sa.value, r.source, at.t.uid))
    case ElectionWon => (at.ListForStart? || at.ListForCancel?) && Election.Wins(st.recs.Values, r.source, r)
    case AccountStillTaken => at.CommitSa? && r.plan.Some? && StillTaken(st, at.t.uid, r.plan.value, at.saUid)
    case Marked => (at.MarkGet? || at.MarkVerify?) && exists s :: s != NotStarted && PlannedStage(st, u, at.t, s)
    case CredentialReadBack => at.FicVerify? && CredentialRead(st, u, at.t)
    case AccountReadBack(saUid) =>
      if at.SaGet? then saUid == "" && st.sa.None? else at.SaVerify? && at.saUid == saUid && r.plan.Some? && ReadBack(st, at.t.uid, r.plan.value, saUid)
    case CredentialsAsPlanned => (at.CommitFics? || at.FinalizeFics?) && CredentialRead(st, u, at.t)
    case OwnerReadBack => (at.CommitGet? || at.CommitVerify?) && exists s :: Committed(s) && PlannedStage(st, u, at.t, s)
    case CommittedCredentialsReadBack =>
      (at.CommitFicsAfter? || (at.CommitFics? && Committed(at.stage))) && CredentialRead(st, u, at.t)
    case FenceReadBack => (at.FinalizeGet? || at.FinalizeVerify?) && PlannedStage(st, u, at.t, Complete)
    case FinishedCredentialsReadBack =>
      (at.FinalizeFicsAfter? || (at.FinalizeFics? && at.stage == Complete)) && CredentialRead(st, u, at.t)
  }

  /** Where the worker stands after its next call. */
  function Next(st: Store, u: Uid, del: bool, at: At, c: Choice): Worker
    requires u in st.recs
  {
    if IsWrite(at) then AfterWrite(st, u, del, at) else Read(st, u, del, at, c)
  }

  // ---------------------------------------------------------------- only the check leads past it

  predicate Enters(k: Check, st: Store, u: Uid, del: bool, at: At, c: Choice) {
    u in st.recs && st.recs[u].uid == u && !at.Elsewhere? &&
    var w := Next(st, u, del, at, c); w.Busy? && Past(k, w.at) && !Past(k, at)
  }

  /** No write leads past a check. */
  lemma WritesEnterNothing(k: Check, st: Store, u: Uid, del: bool, at: At, c: Choice)
    requires Enters(k, st, u, del, at, c)
    ensures !IsWrite(at)
  {
    hide Read;
  }

  predicate Early(at: At) {
    at.ReadTarget? || at.PreIssuer? || at.PreUami? || at.PreFics? || at.PreSa? || at.ListForStart? || at.ListForCancel?
  }

  /** The reads up to the start lead to each other, to the start, or to the first read of the Azure stage. */
  lemma EarlyReads(st: Store, u: Uid, del: bool, at: At, c: Choice)
    requires u in st.recs && Early(at)
    ensures var w := Next(st, u, del, at, c);
            w.Busy? ==>
              Early(w.at) || w.at.Elsewhere? || w.at.LockTarget? || w.at.ReleaseCancelled? || w.at.RemoveFinalizer? || w.at.MarkGet? ||
              w.at.FinalizeGet? || (w.at.PatchStatus? && (w.at.patch.PatchBlocked? || w.at.patch.PatchFailed? || w.at.patch.PatchPlan?))
  {
    hide AfterWrite;
    hide Validate;
    hide Elected;
    hide RecoverableFics;
    hide RecoverableUami;
    hide RecoveryStage;
    hide RecoverableSa;
    hide PlanFor;
  }

  lemma TargetLeads(t: Ident, st: Store, u: Uid, del: bool, at: At, c: Choice)
    requires Enters(TargetAwaited(t), st, u, del, at, c)
    ensures Passes(TargetAwaited(t), st, u, at)
  {
    WritesEnterNothing(TargetAwaited(t), st, u, del, at, c);
    hide AfterWrite;
    if st.wi.Some? {
      ValidateIsExact(st.recs[u], st.wi.value);
    }
    hide Validate;
    hide Awaits;
    hide Load;
    hide ExactFics;
    hide RecoverableFics;
    hide RecoverableUami;
    hide RecoveryStage;
    hide Transferred;
    hide RecoverableSa;
    hide FieldsMatch;
    hide Elected;
    hide PlanFor;
  }

  lemma StageMeans(r: Request, t: Uid, u: Uami)
    ensures RecoveryStage(r, t, u).Some? ==> exists s :: AtStage(r, t, u, s)
  {
    if RecoveryStage(r, t, u).Some? {
      assert AtStage(r, t, u, RecoveryStage(r, t, u).value);
    }
  }

  lemma IdentityLeads(plan: Plan, st: Store, u: Uid, del: bool, at: At, c: Choice)
    requires Enters(IdentityPlanned(plan), st, u, del, at, c)
    ensures Passes(IdentityPlanned(plan), st, u, at)
  {
    WritesEnterNothing(IdentityPlanned(plan), st, u, del, at, c);
    hide AfterWrite;
    if at.PreUami? && st.uami.Some? {
      PlannedIdentity(st, st.recs[u], at.t, at.url);
    }
    hide RecoverableUami;
    hide RecoveryStage;
    hide PlanFor;
    hide PlannedAt;
    hide RecoverableFics;
    hide RecoverableSa;
    hide Validate;
    hide Load;
    hide StageOf;
    hide FicsExact;
    hide AfterElsewhere;
    hide Transferred;
    hide FieldsMatch;
    hide Elected;
  }

  lemma PlannedIdentity(st: Store, r: Recovery, t: Ident, url: string)
    requires st.uami.Some? && RecoverableUami(st.uamiId, t.key, st.uami.value) && RecoveryStage(Req(r), t.uid, st.uami.value).Some?
    ensures PlannedAt(st, r, t, url, PlanFor(st.uami.value, url, Subject(t)))
  {
    StageMeans(Req(r), t.uid, st.uami.value);
    hide RecoveryStage;
    hide AtStage;
    hide BaseOwnership;
    hide EqualFold;
  }

  lemma CredentialSetLeads(st: Store, u: Uid, del: bool, at: At, c: Choice)
    requires Enters(CredentialsRecoverable, st, u, del, at, c)
    ensures Passes(CredentialsRecoverable, st, u, at)
  {
    WritesEnterNothing(CredentialsRecoverable, st, u, del, at, c);
    hide AfterWrite;
    if at.PreFics? {
      RepairIsExact(st.uamiId, at.t, at.plan.tuple, st.fics);
    }
    hide IsTheCredential;
    hide RecoverableFics;
    hide ExactFics;
    hide RecoverableUami;
    hide RecoveryStage;
    hide RecoverableSa;
    hide Validate;
    hide Load;
    hide StageOf;
    hide FicsExact;
    hide AfterElsewhere;
    hide Transferred;
    hide FieldsMatch;
    hide Elected;
  }

  lemma TakeableAccountLeads(st: Store, u: Uid, del: bool, at: At, c: Choice)
    requires Enters(AccountTakeable, st, u, del, at, c)
    ensures Passes(AccountTakeable, st, u, at)
  {
    WritesEnterNothing(AccountTakeable, st, u, del, at, c);
    hide AfterWrite;
    hide RecoverableFics;
    hide RecoverableUami;
    hide RecoveryStage;
    hide Validate;
    hide Load;
    hide StageOf;
    hide FicsExact;
    hide AfterElsewhere;
    hide Transferred;
    hide FieldsMatch;
    hide Elected;
  }

  lemma ElectedWins(st: Store, u: Uid)
    requires u in st.recs && Elected(st.recs, u)
    ensures Election.Wins(st.recs.Values, st.recs[u].source, st.recs[u])
  {
    Election.ElectedIsEarliest(st.recs.Values, st.recs[u].source, st.recs[u]);
  }

  lemma ElectionLeads(st: Store, u: Uid, del: bool, at: At, c: Choice)
    requires Enters(ElectionWon, st, u, del, at, c)
    ensures Passes(ElectionWon, st, u, at)
  {
    WritesEnterNothing(ElectionWon, st, u, del, at, c);
    hide AfterWrite;
    if at.ListForStart? || at.ListForCancel? {
      ElectedWins(st, u);
    }
    hide Elected;
    hide Election.IsElected;
    hide Election.Wins;
    hide Validate;
    hide Load;
    hide ExactFics;
    hide RecoverableFics;
    hide RecoverableUami;
    hide RecoveryStage;
    hide Transferred;
    hide RecoverableSa;
    hide FieldsMatch;
    hide PlanFor;
  }

  lemma AccountLeads(st: Store, u: Uid, del: bool, at: At, c: Choice)
    requires Enters(AccountStillTaken, st, u, del, at, c) && st.recs[u].plan.Some?
    ensures Passes(AccountStillTaken, st, u, at)
  {
    WritesEnterNothing(AccountStillTaken, st, u, del, at, c);
    if Early(at) {
      EarlyReads(st, u, del, at, c);
    }
    hide AfterReadTarget;
    hide AfterPreUami;
    hide AfterWrite;
    hide Validate;
    hide Load;
    hide ExactFics;
    hide RecoverableFics;
    hide RecoverableUami;
    hide RecoveryStage;
    hide Transferred;
    hide RecoverableSa;
    hide Elected;
    hide PlanFor;
  }

  lemma PlannedCredentials(st: Store, u: Uid, t: Ident)
    requires u in st.recs && FicsExact(st, u, t)
    ensures st.recs[u].plan.Some? && AsPlanned(st, t, st.recs[u].plan.value)
  {
    RepairIsExact(st.uamiId, t, st.recs[u].plan.value.tuple, st.fics);
    hide ExactFics;
    hide IsTheCredential;
  }

  lemma CredentialsLead(st: Store, u: Uid, del: bool, at: At, c: Choice)
    requires Enters(CredentialsAsPlanned, st, u, del, at, c)
    ensures Passes(CredentialsAsPlanned, st, u, at)
  {
    WritesEnterNothing(CredentialsAsPlanned, st, u, del, at, c);
    if Early(at) {
      EarlyReads(st, u, del, at, c);
    }
    hide AfterReadTarget;
    hide AfterPreUami;
    if (at.CommitFics? || at.FinalizeFics?) && FicsExact(st, u, at.t) {
      PlannedCredentials(st, u, at.t);
    }
    hide AsPlanned;
    hide FieldsMatch;
    hide AfterWrite;
    hide Validate;
    hide Load;
    hide StageOf;
    hide FicsExact;
    hide AfterElsewhere;
    hide Transferred;
    hide Elected;
    hide RecoverableFics;
    hide RecoverableUami;
    hide RecoveryStage;
    hide RecoverableSa;
    hide PlanFor;
  }

  lemma CredentialReads(st: Store, u: Uid, del: bool, at: At, c: Choice)
    requires u in st.recs && (at.MarkGet? || at.MarkVerify? || at.FicGet? || at.FicVerify?)
    ensures var w := Next(st, u, del, at, c);
            w.Busy? && Takes(w.at) ==> at.FicVerify? && st.uami.Some? && FicsExact(st, u, at.t)
  {
    hide StageOf;
    hide FicsExact;
  }

  lemma CredentialReadBackLeads(st: Store, u: Uid, del: bool, at: At, c: Choice)
    requires Enters(CredentialReadBack, st, u, del, at, c)
    ensures Passes(CredentialReadBack, st, u, at)
  {
    WritesEnterNothing(CredentialReadBack, st, u, del, at, c);
    if Early(at) {
      EarlyReads(st, u, del, at, c);
    } else if at.MarkGet? || at.MarkVerify? || at.FicGet? || at.FicVerify? {
      CredentialReads(st, u, del, at, c);
      PlannedCredentials(st, u, at.t);
    } else {
      assert at.FinalizeGet? || at.FinalizeFics? || at.FinalizeVerify? || at.FinalizeFicsAfter?;
      FinalizeReads(st, u, del, at, c);
    }
    hide Next;
    hide FicsExact;
    hide AsPlanned;
  }

  lemma CommittedCredentialsLead(st: Store, u: Uid, del: bool, at: At, c: Choice)
    requires Enters(CommittedCredentialsReadBack, st, u, del, at, c)
    ensures Passes(CommittedCredentialsReadBack, st, u, at)
  {
    WritesEnterNothing(CommittedCredentialsReadBack, st, u, del, at, c);
    if Early(at) {
      EarlyReads(st, u, del, at, c);
    }
    hide AfterReadTarget;
    hide AfterPreUami;
    if (at.CommitFics? || at.CommitFicsAfter?) && FicsExact(st, u, at.t) {
      PlannedCredentials(st, u, at.t);
    }
    hide AsPlanned;
    hide FieldsMatch;
    hide AfterWrite;
    hide Validate;
    hide Load;
    hide StageOf;
    hide FicsExact;
    hide AfterElsewhere;
    hide Transferred;
    hide Elected;
    hide RecoverableFics;
    hide RecoverableUami;
    hide RecoveryStage;
    hide RecoverableSa;
    hide PlanFor;
  }

  lemma FinishedCredentialsLead(st: Store, u: Uid, del: bool, at: At, c: Choice)
    requires Enters(FinishedCredentialsReadBack, st, u, del, at, c)
    ensures Passes(FinishedCredentialsReadBack, st, u, at)
  {
    WritesEnterNothing(FinishedCredentialsReadBack, st, u, del, at, c);
    if Early(at) {
      EarlyReads(st, u, del, at, c);
    }
    hide AfterReadTarget;
    hide AfterPreUami;
    if (at.FinalizeFics? || at.FinalizeFicsAfter?) && FicsExact(st, u, at.t) {
      PlannedCredentials(st, u, at.t);
    }
    hide AsPlanned;
    hide FieldsMatch;
    hide AfterWrite;
    hide Validate;
    hide Load;
    hide StageOf;
    hide FicsExact;
    hide AfterElsewhere;
    hide Transferred;
    hide Elected;
    hide RecoverableFics;
    hide RecoverableUami;
    hide RecoveryStage;
    hide RecoverableSa;
    hide PlanFor;
  }

  lemma LoadedStage(st: Store, u: Uid, t: Ident)
    requires u in st.recs && StageOf(st, u, t).Some?
    ensures PlannedStage(st, u, t, StageOf(st, u, t).value)
  {
    hide BaseOwnership;
    hide EqualFold;
  }

  lemma FinalizeReads(st: Store, u: Uid, del: bool, at: At, c: Choice)
    requires u in st.recs && (at.FinalizeGet? || at.FinalizeFics? || at.FinalizeVerify? || at.FinalizeFicsAfter?)
    ensures var w := Next(st, u, del, at, c); w.Busy? ==> !Advances(w.at)
  {
    hide StageOf;
    hide FicsExact;
  }

  lemma MarkReads(st: Store, u: Uid, del: bool, at: At, c: Choice)
    requires u in st.recs && (at.MarkGet? || at.MarkVerify?)
    ensures var w := Next(st, u, del, at, c);
            w.Busy? && Advances(w.at) ==> StageOf(st, u, at.t).Some? && StageOf(st, u, at.t).value != NotStarted
  {
    hide StageOf;
  }

  lemma MarkLeads(st: Store, u: Uid, del: bool, at: At, c: Choice)
    requires Enters(Marked, st, u, del, at, c)
    ensures Passes(Marked, st, u, at)
  {
    WritesEnterNothing(Marked, st, u, del, at, c);
    if Early(at) {
      EarlyReads(st, u, del, at, c);
    } else if at.MarkGet? || at.MarkVerify? {
      MarkReads(st, u, del, at, c);
      LoadedStage(st, u, at.t);
    } else {
      assert at.FinalizeGet? || at.FinalizeFics? || at.FinalizeVerify? || at.FinalizeFicsAfter?;
      FinalizeReads(st, u, del, at, c);
    }
    hide Next;
    hide StageOf;
    hide PlannedStage;
  }

  lemma OwnerLeads(st: Store, u: Uid, del: bool, at: At, c: Choice)
    requires Enters(OwnerReadBack, st, u, del, at, c)
    ensures Passes(OwnerReadBack, st, u, at)
  {
    WritesEnterNothing(OwnerReadBack, st, u, del, at, c);
    if Early(at) {
      EarlyReads(st, u, del, at, c);
    }
    hide AfterReadTarget;
    hide AfterPreUami;
    if (at.CommitGet? || at.CommitVerify?) && StageOf(st, u, at.t).Some? {
      LoadedStage(st, u, at.t);
    }
    hide PlannedStage;
    hide FieldsMatch;
    hide AfterWrite;
    hide Validate;
    hide Load;
    hide StageOf;
    hide FicsExact;
    hide AfterElsewhere;
    hide Transferred;
    hide Elected;
    hide RecoverableFics;
    hide RecoverableUami;
    hide RecoveryStage;
    hide RecoverableSa;
    hide PlanFor;
  }

  predicate Finishes(at: At) {
    at.FinalizeGet? || at.FinalizeFics? || at.FinalizePut? || at.FinalizeVerify? || at.FinalizeFicsAfter? || at == PatchStatus(PatchComplete)
  }

  /** The reads between the mark and the commit do not finish. */
  lemma AdvanceReads(st: Store, u: Uid, del: bool, at: At, c: Choice)
    requires u in st.recs && !IsWrite(at) && (at.MarkGet? || at.MarkVerify? || Advances(at))
    ensures var w := Next(st, u, del, at, c); w.Busy? ==> !Finishes(w.at)
  {
    hide StageOf;
    hide FicsExact;
    hide AfterWrite;
    hide Validate;
    hide Transferred;
    hide FieldsMatch;
    hide RecoverableSa;
  }

  lemma FenceReads(st: Store, u: Uid, del: bool, at: At, c: Choice)
    requires u in st.recs && (at.FinalizeGet? || at.FinalizeFics? || at.FinalizeVerify? || at.FinalizeFicsAfter?)
    ensures var w := Next(st, u, del, at, c);
            w.Busy? && Past(FenceReadBack, w.at) && !Past(FenceReadBack, at) ==>
              (at.FinalizeGet? || at.FinalizeVerify?) && StageOf(st, u, at.t) == Some(Complete)
  {
    hide StageOf;
    hide FicsExact;
  }

  lemma FenceLeads(st: Store, u: Uid, del: bool, at: At, c: Choice)
    requires Enters(FenceReadBack, st, u, del, at, c)
    ensures Passes(FenceReadBack, st, u, at)
  {
    WritesEnterNothing(FenceReadBack, st, u, del, at, c);
    if Early(at) {
      EarlyReads(st, u, del, at, c);
    } else if at.MarkGet? || at.MarkVerify? || Advances(at) {
      AdvanceReads(st, u, del, at, c);
    } else {
      assert at.FinalizeGet? || at.FinalizeFics? || at.FinalizeVerify? || at.FinalizeFicsAfter?;
      FenceReads(st, u, del, at, c);
      LoadedStage(st, u, at.t);
    }
    hide Next;
    hide StageOf;
    hide PlannedStage;
  }

  lemma AccountReadBackLeads(saUid: Uid, st: Store, u: Uid, del: bool, at: At, c: Choice)
    requires Enters(AccountReadBack(saUid), st, u, del, at, c)
    ensures Passes(AccountReadBack(saUid), st, u, at)
  {
    WritesEnterNothing(AccountReadBack(saUid), st, u, del, at, c);
    if Early(at) {
      EarlyReads(st, u, del, at, c);
    }
    hide AfterReadTarget;
    hide AfterPreUami;
    hide AfterWrite;
    hide Validate;
    hide Load;
    hide StageOf;
    hide FicsExact;
    hide AfterElsewhere;
    hide Transferred;
    hide Elected;
    hide RecoverableFics;
    hide RecoverableUami;
    hide RecoveryStage;
    hide RecoverableSa;
    hide PlanFor;
  }

  lemma OnlyTheCheckLeads(k: Check, st: Store, u: Uid, del: bool, at: At, c: Choice)
    requires Enters(k, st, u, del, at, c) && (k.AccountStillTaken? ==> st.recs[u].plan.Some?)
    ensures Passes(k, st, u, at)
  {
    hide Enters;
    hide Passes;
    match k
    case TargetAwaited(t) => TargetLeads(t, st, u, del, at, c);
    case ElectionWon => ElectionLeads(st, u, del, at, c);
    case AccountStillTaken => AccountLeads(st, u, del, at, c);
    case Marked => MarkLeads(st, u, del, at, c);
    case CredentialReadBack => CredentialReadBackLeads(st, u, del, at, c);
    case AccountReadBack(saUid) => AccountReadBackLeads(saUid, st, u, del, at, c);
    case CredentialsAsPlanned => CredentialsLead(st, u, del, at, c);
    case OwnerReadBack => OwnerLeads(st, u, del, at, c);
    case CommittedCredentialsReadBack => CommittedCredentialsLead(st, u, del, at, c);
    case FenceReadBack => FenceLeads(st, u, del, at, c);
    case FinishedCredentialsReadBack => FinishedCredentialsLead(st, u, del, at, c);
    case IdentityPlanned(plan) => IdentityLeads(plan, st, u, del, at, c);
    case CredentialsRecoverable => CredentialSetLeads(st, u, del, at, c);
    case AccountTakeable => TakeableAccountLeads(st, u, del, at, c);
  }

  // ---------------------------------------------------------------- histories

  /** From the i-th action on, u has been under one and the same reconcile. */
  ghost predicate SameReconcile(s0: State, run: seq<Action>, u: Uid, i: nat) {
    i < |run| && run[i].WorkerCall? &&
    forall j | i <= j <= |run| :: Run(s0, run[..j]).worker.Busy? && Run(s0, run[..j]).worker.u == u
  }

  /** The i-th action is the read of this reconcile that makes check k, it passes, and the plan is the same
      since. */
  ghost predicate Saw(s0: State, run: seq<Action>, u: Uid, plan: Option<Plan>, k: Check, i: nat) {
    SameReconcile(s0, run, u, i) &&
    var s := Run(s0, run[..i]);
    u in s.st.recs && s.st.recs[u].plan == plan && Passes(k, s.st, u, s.worker.at)
  }

  ghost predicate Seen(s0: State, run: seq<Action>, u: Uid, plan: Option<Plan>, k: Check) {
    exists i: nat :: Saw(s0, run, u, plan, k, i)
  }

  /** Every check that the control point is past has been seen to pass. */
  ghost predicate Vetted(s0: State, run: seq<Action>, u: Uid, plan: Option<Plan>, at: At) {
    forall k | Past(k, at) :: Seen(s0, run, u, plan, k)
  }

  lemma SameReconcileGoesOn(s0: State, run: seq<Action>, a: Action, u: Uid, i: nat)
    requires SameReconcile(s0, run, u, i)
    requires Run(s0, run + [a]).worker.Busy? && Run(s0, run + [a]).worker.u == u
    ensures SameReconcile(s0, run + [a], u, i) && (run + [a])[..i] == run[..i]
  {
    hide Run;
    forall j | i <= j <= |run| + 1
      ensures Run(s0, (run + [a])[..j]).worker.Busy? && Run(s0, (run + [a])[..j]).worker.u == u
    {
      if j <= |run| {
        assert (run + [a])[..j] == run[..j];
      } else {
        assert (run + [a])[..j] == run + [a];
      }
    }
  }

  lemma SeenGoesOn(s0: State, run: seq<Action>, a: Action, u: Uid, plan: Option<Plan>, k: Check)
    requires Seen(s0, run, u, plan, k)
    requires Run(s0, run + [a]).worker.Busy? && Run(s0, run + [a]).worker.u == u
    ensures Seen(s0, run + [a], u, plan, k)
  {
    hide Run;
    hide Passes;
    hide SameReconcile;
    var i: nat :| Saw(s0, run, u, plan, k, i);
    SameReconcileGoesOn(s0, run, a, u, i);
    assert Saw(s0, run + [a], u, plan, k, i);
  }

  lemma VettedGoesOn(s0: State, run: seq<Action>, a: Action, u: Uid, plan: Option<Plan>, at: At)
    requires Vetted(s0, run, u, plan, at)
    requires Run(s0, run + [a]).worker.Busy? && Run(s0, run + [a]).worker.u == u
    ensures Vetted(s0, run + [a], u, plan, at)
  {
    hide Run;
    hide Seen;
    hide Past;
    forall k | Past(k, at)
      ensures Seen(s0, run + [a], u, plan, k)
    {
      SeenGoesOn(s0, run, a, u, plan, k);
    }
  }

  /** A call that makes a check and stays in the reconcile is remembered. */
  lemma SeenJustNow(s0: State, run: seq<Action>, a: Action, u: Uid, k: Check)
    requires a.WorkerCall? && Run(s0, run).worker.Busy? && Run(s0, run).worker.u == u && u in Run(s0, run).st.recs
    requires Run(s0, run + [a]).worker.Busy? && Run(s0, run + [a]).worker.u == u
    requires Passes(k, Run(s0, run).st, u, Run(s0, run).worker.at)
    ensures Seen(s0, run + [a], u, Run(s0, run).st.recs[u].plan, k)
  {
    hide Run;
    hide Passes;
    assert (run + [a])[..|run|] == run && (run + [a])[..|run| + 1] == run + [a];
    assert SameReconcile(s0, run + [a], u, |run|);
    assert Saw(s0, run + [a], u, Run(s0, run).st.recs[u].plan, k, |run|);
  }

  lemma VettedByCall(s0: State, run: seq<Action>, c: Choice, u: Uid)
    requires var s := Run(s0, run);
             Inv(s) && s.worker.Busy? && s.worker.u == u && u in s.st.recs && !s.worker.at.Elsewhere? &&
             Vetted(s0, run, u, s.st.recs[u].plan, s.worker.at)
    requires var s, s' := Run(s0, run), Run(s0, run + [WorkerCall(c)]);
             s'.worker.Busy? && s'.worker.u == u && s'.worker == Next(s.st, u, s.worker.deletion, s.worker.at, c)
    ensures Vetted(s0, run + [WorkerCall(c)], u, Run(s0, run).st.recs[u].plan, Run(s0, run + [WorkerCall(c)]).worker.at)
  {
    hide Run;
    hide Seen;
    hide Past;
    hide Passes;
    hide Next;
    var s, a := Run(s0, run), WorkerCall(c);
    var Busy(_, del, at) := s.worker;
    RecordFactsOf(s, u);
    if at.CommitSa? {
      PlannedAtCommit(s);
    }
    hide Inv;
    VettedGoesOn(s0, run, a, u, s.st.recs[u].plan, at);
    forall k | Past(k, Run(s0, run + [a]).worker.at)
      ensures Seen(s0, run + [a], u, s.st.recs[u].plan, k)
    {
      if !Past(k, at) {
        if k.AccountStillTaken? {
          OnlyCommitSaLeads(s.st, u, del, at, c);
        }
        OnlyTheCheckLeads(k, s.st, u, del, at, c);
        SeenJustNow(s0, run, a, u, k);
      }
    }
  }

  lemma OnlyCommitSaLeads(st: Store, u: Uid, del: bool, at: At, c: Choice)
    requires Enters(AccountStillTaken, st, u, del, at, c)
    ensures at.CommitSa?
  {
    WritesEnterNothing(AccountStillTaken, st, u, del, at, c);
    if Early(at) {
      EarlyReads(st, u, del, at, c);
    }
    hide AfterReadTarget;
    hide AfterPreUami;
    hide AfterWrite;
    hide Validate;
    hide Load;
    hide ExactFics;
    hide RecoverableFics;
    hide RecoverableUami;
    hide RecoveryStage;
    hide Transferred;
    hide RecoverableSa;
    hide FieldsMatch;
    hide Elected;
    hide PlanFor;
  }

  lemma PlannedAtCommit(s: State)
    requires Inv(s) && s.worker.Busy? && s.worker.u in s.st.recs && s.worker.at.CommitSa?
    ensures s.st.recs[s.worker.u].plan.Some?
  {
    assert Advancing(s.st, s.st.recs[s.worker.u], s.worker.at.t);
    hide Global;
    hide NormalOk;
    hide LockHeld;
  }

  /** The next call keeps to its record, and a plan is not recorded in the middle of a reconcile. */
  lemma NextKeepsToItsRecord(s: State, c: Choice)
    requires Inv(s) && s.worker.Busy? && s.worker.u in s.st.recs && StepWorker(s, c).worker.Busy?
    ensures var Busy(u, del, at) := s.worker;
            var s' := StepWorker(s, c);
            s'.worker == Next(s.st, u, del, at, c) && s'.worker.u == u && s'.st.local == s.st.local &&
            (u in s'.st.recs ==> s.st.recs[u].plan == s'.st.recs[u].plan && s'.st.recs[u].target == s.st.recs[u].target)
  {
    var Busy(u, del, at) := s.worker;
    RecordFactsOf(s, u);
    hide Inv;
    NextIsTheSame(s.st, u, del, at, c);
    hide Next;
    if IsWrite(at) {
      WriteKeepsPlan(s.st, u, del, at);
    }
    hide Write;
  }

  lemma NextIsTheSame(st: Store, u: Uid, del: bool, at: At, c: Choice)
    requires u in st.recs && st.recs[u].uid == u
    ensures Next(st, u, del, at, c).Busy? ==> Next(st, u, del, at, c).u == u
  {
    hide Load;
    hide Validate;
    hide ExactFics;
    hide RecoverableFics;
    hide RecoverableUami;
    hide RecoveryStage;
    hide Transferred;
    hide RecoverableSa;
    hide FieldsMatch;
    hide Elected;
    hide PlanFor;
  }

  lemma WriteKeepsPlan(st: Store, u: Uid, del: bool, at: At)
    requires u in st.recs && st.recs[u].uid == u && IsWrite(at) && AfterWrite(st, u, del, at).Busy?
    ensures Write(st, u, at).local == st.local
    ensures u in Write(st, u, at).recs ==> Write(st, u, at).recs[u].plan == st.recs[u].plan && Write(st, u, at).recs[u].target == st.recs[u].target
  {
    hide PatchTarget;
    hide Transferred;
    hide Upsert;
    hide PatchConds;
    hide MergeTags;
    hide WithoutFence;
  }

  lemma EntryIsPastNothing(r: Recovery, configured: bool)
    ensures Enter(r, configured).Busy? ==> forall k :: !Past(k, Enter(r, configured).at)
  {
  }

  /** What the other actions leave alone of a reconcile in progress. */
  lemma OthersKeepReconcile(s: State, a: Action, u: Uid)
    requires Inv(s) && !a.WorkerCall? && u in s.st.recs
    ensures var s' := Apply(s, a);
            (s'.worker == s.worker || s'.worker.Idle? || (s.worker.Idle? && forall k :: !Past(k, s'.worker.at))) &&
            (u in s'.st.recs ==> s'.st.recs[u].plan == s.st.recs[u].plan && s'.st.recs[u].target == s.st.recs[u].target) &&
            (s.st.recs[u].target in s'.st.local ==> s.st.recs[u].target in s.st.local)
  {
    assert u in s.st.used && s.st.recs[u].target in s.st.used;
    hide Inv;
    if a.WorkerBegin? && a.u in s.st.recs {
      EntryIsPastNothing(s.st.recs[a.u], a.c.configured);
    }
    hide Past;
    hide Enter;
    match a
    case NormalCall(c) => NormalLeavesRecords(s, c); NormalLeavesWorker(s, c); NormalLeavesLocal(s, c); hide StepNormal;
    case _ => UsersLeaveRecords(s, a, u); hide NormalEnter; hide EditedTags;
  }

  lemma NormalLeavesLocal(s: State, c: Choice)
    ensures StepNormal(s, c).st.local == s.st.local
  {
    hide NormalRead;
    hide AfterNormalWrite;
    hide ApplyWiPatch;
    hide Upsert;
  }

  /** In every run, past each check a reconcile has made it itself and has seen it pass. */
  lemma {:induction false} EveryReconcileIsVetted(s0: State, run: seq<Action>, u: Uid)
    requires Init(s0)
    requires var s := Run(s0, run); s.worker.Busy? && s.worker.u == u && u in s.st.recs && s.st.recs[u].target in s.st.local
    ensures var s := Run(s0, run); Vetted(s0, run, u, s.st.recs[u].plan, s.worker.at)
    decreases |run|
  {
    hide Apply;
    hide Vetted;
    hide Inv;
    hide StepWorker;
    hide Next;
    hide Past;
    if run == [] {
      assert false;
    } else {
      var n := |run| - 1;
      var s1, a := Run(s0, run[..n]), run[n];
      assert run == run[..n] + [a];
      ReachableIsSafe(s0, run[..n]);
      hide Run;
      hide Init;
      if u !in s1.st.recs {
        UnknownRecord(s1, a, u);
        FirstPosition(Run(s0, run).worker.at);
        NothingToVet(s0, run, u, Run(s0, run).st.recs[u].plan, Run(s0, run).worker.at);
      } else if a.WorkerCall? {
        CallIsStep(s1, a.c);
        StaysBusy(s1, a.c);
        NextKeepsToItsRecord(s1, a.c);
        LocalIsNotElsewhere(s1);
        EveryReconcileIsVetted(s0, run[..n], u);
        VettedByCall(s0, run[..n], a.c, u);
      } else {
        OthersKeepReconcile(s1, a, u);
        if s1.worker == Run(s0, run).worker {
          EveryReconcileIsVetted(s0, run[..n], u);
          VettedGoesOn(s0, run[..n], a, u, s1.st.recs[u].plan, s1.worker.at);
        } else {
          NothingToVet(s0, run, u, Run(s0, run).st.recs[u].plan, Run(s0, run).worker.at);
        }
      }
    }
  }

  /** A reconcile whose record is not there can only be about to add the finalizer. */
  lemma UnknownRecord(s: State, a: Action, u: Uid)
    requires Inv(s) && u !in s.st.recs && Apply(s, a).worker.Busy? && Apply(s, a).worker.u == u
    ensures Apply(s, a).worker.at == AddFinalizer
  {
    hide Global;
    hide NormalOk;
    hide StepNormal;
    match a
    case NormalCall(c) => NormalLeavesWorker(s, c);
    case WorkerCall(c) => OnlyOwnRecord(s, c);
    case _ => if Apply(s, a).worker != s.worker { EnterKeepsTo(s, a); } hide Apply;
  }

  lemma OnlyOwnRecord(s: State, c: Choice)
    requires Inv(s) && StepWorker(s, c).worker.Busy?
    ensures s.worker.Busy? && s.worker.u in s.st.recs && StepWorker(s, c).worker.u == s.worker.u
  {
    StaysBusy(s, c);
    NextKeepsToItsRecord(s, c);
    hide Inv;
    hide StepWorker;
  }

  lemma EnterKeepsTo(s: State, a: Action)
    requires Inv(s) && !a.WorkerCall? && !a.NormalCall? && Apply(s, a).worker.Busy? && Apply(s, a).worker != s.worker
    ensures Apply(s, a).worker.u in s.st.recs
  {
    if a.WorkerBegin? && a.u in s.st.recs {
      RecordFactsOf(s, a.u);
    }
    hide Inv;
    hide NormalEnter;
    hide EditedTags;
  }

  lemma CallIsStep(s: State, c: Choice)
    ensures Apply(s, WorkerCall(c)) == StepWorker(s, c)
  {
    hide StepWorker;
  }

  lemma StaysBusy(s: State, c: Choice)
    requires StepWorker(s, c).worker.Busy?
    ensures s.worker.Busy? && s.worker.u in s.st.recs
  {
    hide Read;
    hide Write;
    hide AfterWrite;
  }

  lemma LocalIsNotElsewhere(s: State)
    requires Inv(s) && s.worker.Busy? && s.worker.u in s.st.recs && s.st.recs[s.worker.u].target in s.st.local
    ensures !s.worker.at.Elsewhere?
  {
    hide Global;
    hide NormalOk;
  }

  lemma FirstPosition(at: At)
    requires at == AddFinalizer
    ensures forall k :: !Past(k, at)
  {
  }

  lemma NothingToVet(s0: State, run: seq<Action>, u: Uid, plan: Option<Plan>, at: At)
    requires forall k :: !Past(k, at)
    ensures Vetted(s0, run, u, plan, at)
  {
  }

  // ---------------------------------------------------------------- what is written after which reads

  /** The owner of the UAMI changes only after the same reconcile has read the planned identity under its
      fence, the planned credential back, the transferred account as it was left, or still none, and the
      planned credential once more. */
  lemma CommitFollowsItsReads(s0: State, run: seq<Action>, a: Action)
    requires Init(s0)
    requires var s := Run(s0, run); s.st.uami.Some? && Apply(s, a).st.uami.Some? && OwnerOf(Apply(s, a).st) != OwnerOf(s.st)
    ensures var s := Run(s0, run);
            s.worker.Busy? && s.worker.u in s.st.recs &&
            var u, plan := s.worker.u, s.st.recs[s.worker.u].plan;
            Seen(s0, run, u, plan, Marked) && Seen(s0, run, u, plan, CredentialReadBack) &&
            Seen(s0, run, u, plan, AccountStillTaken) && Seen(s0, run, u, plan, CredentialsAsPlanned)
  {
    OwnershipIsAnAuthorisedChain(s0, run, a);
    ReachableIsSafe(s0, run);
    LocalAtTagWrite(Run(s0, run));
    hide Inv;
    hide Apply;
    EveryReconcileIsVetted(s0, run, Run(s0, run).worker.u);
    VettedCommit(s0, run, Run(s0, run).worker.u, Run(s0, run).st.recs[Run(s0, run).worker.u].plan, Run(s0, run).worker.at);
    hide Vetted;
    hide Run;
    hide Init;
    hide Seen;
    hide LockHeld;
  }

  lemma VettedCommit(s0: State, run: seq<Action>, u: Uid, plan: Option<Plan>, at: At)
    requires Vetted(s0, run, u, plan, at) && at.CommitPut?
    ensures Seen(s0, run, u, plan, Marked) && Seen(s0, run, u, plan, CredentialReadBack)
    ensures Seen(s0, run, u, plan, AccountStillTaken) && Seen(s0, run, u, plan, CredentialsAsPlanned)
  {
    hide Seen;
  }

  lemma LocalAtTagWrite(s: State)
    requires Inv(s) && s.worker.Busy? && s.worker.u in s.st.recs && s.worker.at.CommitPut?
    ensures s.st.recs[s.worker.u].target in s.st.local
  {
    assert Advancing(s.st, s.st.recs[s.worker.u], s.worker.at.t);
    hide Global;
    hide NormalOk;
    hide LockHeld;
  }

  /** Each checkpoint is recorded only after the reads it rests on, by the reconcile that records it: the plan
      after the identity it describes, a recoverable credential set and an account to take over; the
      start after the election; the commit after the fence, the credential, the account and the new
      owner; completion after the fallen fence and the credential. */
  lemma CheckpointsFollowTheirReads(s0: State, run: seq<Action>, c: Choice, u: Uid)
    requires Init(s0) && u in Run(s0, run).st.recs && Run(s0, run).st.recs[u].target in Run(s0, run).st.local
    requires u in Apply(Run(s0, run), WorkerCall(c)).st.recs
    ensures var r, r' := Run(s0, run).st.recs[u], Apply(Run(s0, run), WorkerCall(c)).st.recs[u];
            (r'.plan != r.plan ==>
               r.plan.None? && r'.plan.Some? && Seen(s0, run, u, None, IdentityPlanned(r'.plan.value)) &&
               Seen(s0, run, u, None, CredentialsRecoverable) && Seen(s0, run, u, None, AccountTakeable)) &&
            (r'.started && !r.started ==> Seen(s0, run, u, r.plan, ElectionWon)) &&
            (r'.commitVerified && !r.commitVerified ==>
               Seen(s0, run, u, r.plan, Marked) && Seen(s0, run, u, r.plan, CredentialReadBack) &&
               Seen(s0, run, u, r.plan, AccountStillTaken) && Seen(s0, run, u, r.plan, OwnerReadBack) &&
               Seen(s0, run, u, r.plan, CommittedCredentialsReadBack)) &&
            (IsComplete(r') && !IsComplete(r) ==>
               Seen(s0, run, u, r.plan, FenceReadBack) && Seen(s0, run, u, r.plan, FinishedCredentialsReadBack))
  {
    ReachableIsSafe(s0, run);
    var s := Run(s0, run);
    CallIsStep(s, c);
    if Apply(s, WorkerCall(c)).st.recs[u] != s.st.recs[u] {
      CheckpointIsAPatch(s, c, u);
      EveryReconcileIsVetted(s0, run, u);
      VettedPatch(s0, run, u, s.st.recs[u].plan, s.worker.at);
    }
    hide Run;
    hide Init;
    hide Inv;
    hide StepWorker;
    hide Apply;
    hide Vetted;
    hide Seen;
    hide IsComplete;
  }

  lemma VettedPatch(s0: State, run: seq<Action>, u: Uid, plan: Option<Plan>, at: At)
    requires Vetted(s0, run, u, plan, at)
    ensures forall p :: at == PatchStatus(PatchPlan(p)) ==>
              Seen(s0, run, u, plan, IdentityPlanned(p)) && Seen(s0, run, u, plan, CredentialsRecoverable) &&
              Seen(s0, run, u, plan, AccountTakeable)
    ensures at == PatchStatus(PatchStarted) ==> Seen(s0, run, u, plan, ElectionWon)
    ensures at == PatchStatus(PatchCommitVerified) ==>
              Seen(s0, run, u, plan, Marked) && Seen(s0, run, u, plan, CredentialReadBack) && Seen(s0, run, u, plan, AccountStillTaken) &&
              Seen(s0, run, u, plan, OwnerReadBack) && Seen(s0, run, u, plan, CommittedCredentialsReadBack)
    ensures at == PatchStatus(PatchComplete) ==>
              Seen(s0, run, u, plan, FenceReadBack) && Seen(s0, run, u, plan, FinishedCredentialsReadBack)
  {
    hide Seen;
  }

  lemma CheckpointIsAPatch(s: State, c: Choice, u: Uid)
    requires Inv(s) && u in s.st.recs && u in StepWorker(s, c).st.recs && StepWorker(s, c).st.recs[u] != s.st.recs[u]
    ensures s.worker.Busy? && s.worker.u == u
    ensures var r, r' := s.st.recs[u], StepWorker(s, c).st.recs[u];
            (r'.plan != r.plan ==> r.plan.None? && r'.plan.Some? && s.worker.at == PatchStatus(PatchPlan(r'.plan.value))) &&
            (r'.started && !r.started ==> s.worker.at == PatchStatus(PatchStarted)) &&
            (r'.commitVerified && !r.commitVerified ==> s.worker.at == PatchStatus(PatchCommitVerified)) &&
            (IsComplete(r') && !IsComplete(r) ==> s.worker.at == PatchStatus(PatchComplete))
  {
    if s.worker.Busy? && s.worker.u == u && s.worker.at.PatchStatus? {
      assert WorkerAt(s.st, u, s.worker.deletion, s.worker.at);
      assert PatchAt(s.st, s.st.recs[u], s.worker.at.patch);
      PatchWrites(s, c);
      PatchesMean(s.st.recs[u], s.worker.at.patch);
    } else {
      OthersWriteNoCheckpoint(s, c, u);
    }
    hide Global;
    hide NormalOk;
    hide WorkerAt;
    hide StepWorker;
    hide ApplyPatch;
    hide LockHeld;
    hide IsComplete;
  }

  lemma PatchWrites(s: State, c: Choice)
    requires s.worker.Busy? && s.worker.u in s.st.recs && s.worker.at.PatchStatus?
    ensures StepWorker(s, c).st.recs == s.st.recs[s.worker.u := ApplyPatch(s.st.recs[s.worker.u], s.worker.at.patch)]
  {
    hide AfterWrite;
    hide ApplyPatch;
  }

  lemma OthersWriteNoCheckpoint(s: State, c: Choice, u: Uid)
    requires Inv(s) && u in s.st.recs && u in StepWorker(s, c).st.recs && StepWorker(s, c).st.recs[u] != s.st.recs[u]
    requires !(s.worker.Busy? && s.worker.u == u && s.worker.at.PatchStatus?)
    ensures s.worker.Busy? && s.worker.u == u
    ensures var r, r' := s.st.recs[u], StepWorker(s, c).st.recs[u]; r' == r.(finalizer := r'.finalizer)
  {
    hide Inv;
    hide Read;
    hide AfterWrite;
    hide PatchTarget;
    hide Transferred;
    hide Upsert;
    hide ApplyPatch;
    hide MergeTags;
    hide WithoutFence;
  }
}
