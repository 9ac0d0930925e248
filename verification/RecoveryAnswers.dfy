/** What each read of the recovery worker leads to, in terms of the controller's own copy of the
    recovery and of what the call returned. */
module RecoveryAnswers {
  import opened OwnershipTags
  import opened Azure
  import opened Resources
  import opened Target
  import opened ServiceAccounts
  import opened Protocol
  import opened Cluster
  import Election

  /** The controller's copy and the record in the stores agree on everything a call uses. */
  ghost predicate Knows(st: Store, r: Recovery) {
    r.uid in st.recs && SameButDeleting(r, st.recs[r.uid])
  }

  function StageFor(st: Store, r: Recovery, t: Ident): Option<Stage> {
    Load(st.uamiId, Req(r), t, r.plan, st.uami)
  }

  predicate ExactFor(st: Store, r: Recovery, t: Ident) {
    r.plan.Some? && ExactFics(st.uamiId, t, r.plan.value.tuple, st.fics)
  }

  lemma MarkGetAnswer(st: Store, r: Recovery, del: bool, t: Ident, c: Choice)
    requires Knows(st, r)
    ensures Read(st, r.uid, del, MarkGet(t), c) ==
              match StageFor(st, r, t)
              case None => Blocking(r.uid, del)
              case Some(s) => Busy(r.uid, del, if s == NotStarted then MarkPut(t, st.uami.value.tags) else FicGet(t))
  {
    hide Load;
  }

  lemma FicGetAnswer(st: Store, r: Recovery, del: bool, t: Ident, c: Choice)
    requires Knows(st, r)
    ensures Read(st, r.uid, del, FicGet(t), c) ==
              match StageFor(st, r, t)
              case None => Blocking(r.uid, del)
              case Some(s) =>
                if s == NotStarted then Blocking(r.uid, del) else Busy(r.uid, del, if s == InProgress then FicPut(t) else FicVerify(t))
  {
    hide Load;
  }

  lemma CommitGetAnswer(st: Store, r: Recovery, del: bool, t: Ident, c: Choice)
    requires Knows(st, r)
    ensures Read(st, r.uid, del, CommitGet(t), c) ==
              match StageFor(st, r, t)
              case None => Blocking(r.uid, del)
              case Some(s) => if s == NotStarted then Blocking(r.uid, del) else Busy(r.uid, del, CommitFics(t, s, st.uami.value.tags))
  {
    hide Load;
  }

  lemma FinalizeGetAnswer(st: Store, r: Recovery, del: bool, t: Ident, c: Choice)
    requires Knows(st, r)
    ensures Read(st, r.uid, del, FinalizeGet(t), c) ==
              match StageFor(st, r, t)
              case None => Blocking(r.uid, del)
              case Some(s) =>
                if s != CommittedFenced && s != Complete then Blocking(r.uid, del)
                else Busy(r.uid, del, FinalizeFics(t, s, st.uami.value.tags))
  {
    hide Load;
  }

  /** The stage a verification expects. */
  function ExpectedAt(at: At): Stage
    requires at.MarkVerify? || at.CommitVerify? || at.FinalizeVerify?
  {
    if at.MarkVerify? then InProgress else if at.CommitVerify? then CommittedFenced else Complete
  }

  function VerifiedTo(at: At): At
    requires at.MarkVerify? || at.CommitVerify? || at.FinalizeVerify?
  {
    if at.MarkVerify? then FicGet(at.t) else if at.CommitVerify? then CommitFicsAfter(at.t) else FinalizeFicsAfter(at.t)
  }

  lemma VerifyAnswer(st: Store, r: Recovery, del: bool, at: At, c: Choice)
    requires Knows(st, r) && (at.MarkVerify? || at.CommitVerify? || at.FinalizeVerify?)
    ensures Read(st, r.uid, del, at, c) ==
              if StageFor(st, r, at.t) == Some(ExpectedAt(at)) then Busy(r.uid, del, VerifiedTo(at)) else Blocking(r.uid, del)
  {
    hide Load;
  }

  predicate ChecksCredentials(at: At) {
    at.FicVerify? || at.CommitFics? || at.CommitFicsAfter? || at.FinalizeFics? || at.FinalizeFicsAfter?
  }

  /** Where the check of the credentials leads when they are exact. */
  function ExactTo(at: At): At
    requires ChecksCredentials(at)
  {
    match at
    case FicVerify(t) => SaGet(t)
    case CommitFics(t, s, tags) => if s == CommittedFenced || s == Complete then PatchStatus(PatchCommitVerified) else CommitPut(t, tags)
    case CommitFicsAfter(_) => PatchStatus(PatchCommitVerified)
    case FinalizeFics(t, s, tags) => if s == Complete then PatchStatus(PatchComplete) else FinalizePut(t, tags)
    case FinalizeFicsAfter(_) => PatchStatus(PatchComplete)
  }

  lemma CredentialsAnswer(st: Store, r: Recovery, del: bool, at: At, c: Choice)
    requires Knows(st, r) && ChecksCredentials(at) && st.uami.Some?
    ensures Read(st, r.uid, del, at, c) == if ExactFor(st, r, at.t) then Busy(r.uid, del, ExactTo(at)) else Blocking(r.uid, del)
  {
    hide ExactFics;
  }

  lemma SaGetAnswer(st: Store, r: Recovery, del: bool, t: Ident, c: Choice)
    requires Knows(st, r) && r.plan.Some?
    ensures Read(st, r.uid, del, SaGet(t), c) ==
              if st.sa.None? then Busy(r.uid, del, CommitRecovery(t, ""))
              else if !RecoverableSa(r.source, t.uid, st.sa.value) then Blocking(r.uid, del)
              else if Transferred(t.uid, r.plan.value, st.sa.value) == st.sa.value then Busy(r.uid, del, SaVerify(t, st.sa.value.uid))
              else Busy(r.uid, del, SaPut(t, st.sa.value))
  {
    hide Transferred;
    hide RecoverableSa;
  }

  lemma SaVerifyAnswer(st: Store, r: Recovery, del: bool, t: Ident, saUid: Uid, c: Choice)
    requires Knows(st, r) && r.plan.Some?
    ensures Read(st, r.uid, del, SaVerify(t, saUid), c) ==
              if st.sa.None? then Idle
              else if st.sa.value.uid == saUid && FieldsMatch(t.uid, r.plan.value, st.sa.value) then Busy(r.uid, del, CommitRecovery(t, saUid))
              else Blocking(r.uid, del)
  {
    hide FieldsMatch;
  }

  lemma CommitTargetAnswer(st: Store, r: Recovery, del: bool, t: Ident, saUid: Uid, c: Choice)
    requires Knows(st, r)
    ensures Read(st, r.uid, del, CommitTarget(t, saUid), c) ==
              if st.wi.None? || st.wi.value.id.key != r.key then Idle
              else if Validate(r, st.wi.value) != TargetOk then Blocking(r.uid, del)
              else Busy(r.uid, del, CommitSa(st.wi.value.id, saUid))
  {
  }

  lemma CommitSaAnswer(st: Store, r: Recovery, del: bool, t: Ident, saUid: Uid, c: Choice)
    requires Knows(st, r) && r.plan.Some?
    ensures Read(st, r.uid, del, CommitSa(t, saUid), c) ==
              if st.sa.None? then (if saUid == "" then Busy(r.uid, del, CommitGet(t)) else Idle)
              else if saUid == "" || st.sa.value.uid != saUid || !FieldsMatch(t.uid, r.plan.value, st.sa.value) then Blocking(r.uid, del)
              else Busy(r.uid, del, CommitGet(t))
  {
    hide FieldsMatch;
  }

  lemma ReadTargetAnswer(st: Store, r: Recovery, del: bool, c: Choice)
    requires Knows(st, r)
    ensures Read(st, r.uid, del, ReadTarget, c) ==
              if r.target !in st.local then Busy(r.uid, del, Elsewhere)
              else if st.wi.None? || st.wi.value.id.key != r.key then Rejecting(r, del)
              else if Validate(r, st.wi.value) != TargetOk then Rejecting(r, del)
              else Forward(r, del, st.wi.value.id)
  {
    assert st.wi.Some? ==> Validate(st.recs[r.uid], st.wi.value) == Validate(r, st.wi.value);
    hide Validate;
  }

  lemma PreflightAnswer(st: Store, r: Recovery, del: bool, at: At, c: Choice)
    requires Knows(st, r)
    ensures at.PreIssuer? ==>
              Read(st, r.uid, del, at, c) == if c.issuer.None? then Blocking(r.uid, del) else Busy(r.uid, del, PreUami(at.t, c.issuer.value))
    ensures at.PreUami? ==> Read(st, r.uid, del, at, c) == AfterPreUami(st, r, del, at.t, at.url)
    ensures at.PreFics? && st.uami.Some? ==>
              Read(st, r.uid, del, at, c) ==
                if RecoverableFics(st.uamiId, at.t, st.fics) then Busy(r.uid, del, PreSa(at.t, at.plan)) else Blocking(r.uid, del)
    ensures at.PreSa? ==>
              Read(st, r.uid, del, at, c) ==
                if st.sa.Some? && !RecoverableSa(r.source, at.t.uid, st.sa.value) then Blocking(r.uid, del)
                else Busy(r.uid, del, PatchStatus(PatchPlan(at.plan)))
  {
    hide RecoverableFics;
    hide RecoverableSa;
    hide RecoverableUami;
    hide RecoveryStage;
    hide PlanFor;
  }

  /** The loop over the records answers the election of the protocol. */
  lemma WinnerAnswer(st: Store, r: Recovery, list: seq<Recovery>, winner: Option<Recovery>)
    requires Knows(st, r) && Election.Records(list) == st.recs.Values && Election.DistinctUids(st.recs.Values)
    requires winner.Some? ==> Election.IsElected(Election.Records(list), r.source, winner.value) && winner.value.uid != r.uid
    requires winner.None? ==>
               (forall c | c in list :: c.source != r.source) ||
               exists w :: Election.IsElected(Election.Records(list), r.source, w) && w.uid == r.uid
    ensures winner.None? <==> Elected(st.recs, r.uid)
  {
    var now := st.recs[r.uid];
    assert now in st.recs.Values && now in Election.Records(list) && now in list;
    if winner.None? {
      var w :| Election.IsElected(Election.Records(list), r.source, w) && w.uid == r.uid;
      assert w in st.recs.Values && w == now;
    } else if Elected(st.recs, r.uid) {
      Election.ElectedIsUnique(st.recs.Values, r.source, now, winner.value);
    }
  }

  lemma ListAnswer(st: Store, r: Recovery, del: bool, at: At, c: Choice)
    requires Knows(st, r) && (at.ListForStart? || at.ListForCancel?)
    ensures Read(st, r.uid, del, at, c) ==
              if Elected(st.recs, r.uid) then Busy(r.uid, del, if at.ListForStart? then LockTarget else ReleaseCancelled)
              else Busy(r.uid, del, if at.ListForStart? then PatchStatus(PatchFailed) else RemoveFinalizer)
  {
    hide Elected;
  }

  lemma ElsewhereAnswer(st: Store, r: Recovery, del: bool, c: Choice)
    requires Knows(st, r)
    ensures Read(st, r.uid, del, Elsewhere, c) == AfterElsewhere(r, del, c.outcome)
  {
  }
}
