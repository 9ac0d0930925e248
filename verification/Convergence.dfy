/** Crash-safe convergence: in a quiet environment that can be recovered, every reconcile of the
    elected recovery takes one more durable checkpoint, until the UAMI belongs to the target
    and the target is released. */
module Convergence {
  import opened OwnershipTags
  import opened Azure
  import opened Resources
  import opened Target
  import opened ServiceAccounts
  import opened Protocol
  import opened Invariant
  import opened TagWrites

  // ---------------------------------------------------------------- undisturbed calls

  datatype Position = Position(st: Store, worker: Worker)

  /** n calls of the worker with nobody else acting. */
  ghost function Calls(st: Store, w: Worker, c: Choice, n: nat): Position
    decreases n
  {
    if n == 0 then Position(st, w)
    else if w.Idle? || w.u !in st.recs then Calls(st, Idle, c, n - 1)
    else if IsWrite(w.at) then Calls(Write(st, w.u, w.at), AfterWrite(st, w.u, w.deletion, w.at), c, n - 1)
    else Calls(st, Read(st, w.u, w.deletion, w.at, c), c, n - 1)
  }

  lemma {:induction false} IdleStays(st: Store, c: Choice, n: nat)
    ensures Calls(st, Idle, c, n) == Position(st, Idle)
  {
    if n > 0 {
      IdleStays(st, c, n - 1);
    }
  }

  lemma NoMoreCalls(st: Store, w: Worker, c: Choice)
    ensures Calls(st, w, c, 0) == Position(st, w)
  {
  }

  /** Calls that have come to rest stay there. */
  lemma {:induction false} AtRest(st: Store, w: Worker, c: Choice, m: nat, n: nat)
    requires Calls(st, w, c, m).worker.Idle? && m <= n
    ensures Calls(st, w, c, n) == Calls(st, w, c, m)
    decreases m
  {
    hide Read;
    hide Write;
    hide AfterWrite;
    if m == 0 {
      IdleStays(st, c, n);
    } else if w.Idle? || w.u !in st.recs {
      AtRest(st, Idle, c, m - 1, n - 1);
    } else if IsWrite(w.at) {
      AtRest(Write(st, w.u, w.at), AfterWrite(st, w.u, w.deletion, w.at), c, m - 1, n - 1);
    } else {
      AtRest(st, Read(st, w.u, w.deletion, w.at, c), c, m - 1, n - 1);
    }
  }

  lemma RestIsUnique(st: Store, w: Worker, c: Choice, m: nat, n: nat)
    requires Calls(st, w, c, m).worker.Idle? && Calls(st, w, c, n).worker.Idle?
    ensures Calls(st, w, c, n) == Calls(st, w, c, m)
  {
    hide Calls;
    if m <= n {
      AtRest(st, w, c, m, n);
    } else {
      AtRest(st, w, c, n, m);
    }
  }

  lemma ReadCall(st: Store, u: Uid, del: bool, at: At, c: Choice, n: nat)
    requires u in st.recs && !IsWrite(at) && n > 0
    ensures Calls(st, Busy(u, del, at), c, n) == Calls(st, Read(st, u, del, at, c), c, n - 1)
  {
  }

  lemma WriteCall(st: Store, u: Uid, del: bool, at: At, c: Choice, n: nat)
    requires u in st.recs && IsWrite(at) && n > 0
    ensures Calls(st, Busy(u, del, at), c, n) == Calls(Write(st, u, at), AfterWrite(st, u, del, at), c, n - 1)
  {
  }

  // ---------------------------------------------------------------- the recoverable environment

  /** The recovery exists and its target exists under its name. */
  predicate TargetPresent(st: Store, u: Uid) {
    u in st.recs && st.recs[u].uid == u && WellFormed(Req(st.recs[u]), st.recs[u].target) && st.recs[u].target in st.local &&
    st.wi.Some? && st.wi.value.id.uid == st.recs[u].target && st.wi.value.id.key == st.recs[u].key
  }

  /** The UAMI is at stage s, complete, and the one the plan describes. */
  ghost predicate UamiFits(st: Store, u: Uid, s: Stage)
    requires TargetPresent(st, u)
  {
    var r, t := st.recs[u], st.wi.value.id;
    st.uami.Some? && RecoverableUami(st.uamiId, t.key, st.uami.value) && AtStage(Req(r), t.uid, st.uami.value, s) &&
    (r.plan.Some? ==> PlanMatches(st.uami.value, r.plan.value))
  }

  /** Up to the owner commit a missing or stale credential is repaired; afterwards it has to be exact. */
  predicate FicsFit(st: Store, u: Uid, s: Stage)
    requires TargetPresent(st, u)
  {
    if s == NotStarted || s == InProgress then RecoverableFics(st.uamiId, st.wi.value.id, st.fics)
    else FicsExact(st, u, st.wi.value.id)
  }

  predicate SaFits(st: Store, u: Uid)
    requires TargetPresent(st, u)
  {
    st.sa.Some? ==> st.sa.value.uid != "" && RecoverableSa(st.recs[u].source, st.recs[u].target, st.sa.value)
  }

  ghost predicate Externals(st: Store, u: Uid, s: Stage)
    requires TargetPresent(st, u)
  {
    UamiFits(st, u, s) && FicsFit(st, u, s) && SaFits(st, u)
  }

  /** A started recovery whose target is locked, in a recoverable environment. */
  ghost predicate Going(st: Store, u: Uid, s: Stage) {
    TargetPresent(st, u) && Externals(st, u, s) && LockHeld(st, st.recs[u]) &&
    st.recs[u].started && st.recs[u].plan.Some? && !IsComplete(st.recs[u]) && !IsFailed(st.recs[u])
  }

  lemma StageIs(st: Store, u: Uid, s: Stage)
    requires Going(st, u, s)
    ensures TargetPresent(st, u) && StageOf(st, u, st.wi.value.id) == Some(s)
    ensures st.uami.Some? && st.recs[u].plan.Some? && LockHeld(st, st.recs[u])
  {
    LoadReaches(st.uamiId, Req(st.recs[u]), st.wi.value.id, st.recs[u].plan, st.uami.value, s);
  }

  // ---------------------------------------------------------------- MarkInProgress

  function Marked(s: Stage): Stage { if s == NotStarted then InProgress else s }

  lemma MarkSegment(st: Store, u: Uid, del: bool, c: Choice, stage: Stage, n: nat) returns (st': Store, left: nat)
    requires Going(st, u, stage) && n >= 3
    ensures st' == st.(uami := st'.uami) && Going(st', u, Marked(stage)) && left >= n - 3
    ensures var t := st.wi.value.id;
            Calls(st, Busy(u, del, MarkGet(t)), c, n) == Calls(st', Busy(u, del, FicGet(t)), c, left)
  {
    hide Calls;
    hide Going;
    hide StageOf;
    hide MergeTags;
    StageIs(st, u, stage);
    var t := st.wi.value.id;
    ReadCall(st, u, del, MarkGet(t), c, n);
    if stage == NotStarted {
      MarkedGoing(st, u);
      var at := MarkPut(t, st.uami.value.tags);
      st', left := Write(st, u, at), n - 3;
      StageIs(st', u, InProgress);
      WriteCall(st, u, del, at, c, n - 1);
      ReadCall(st', u, del, MarkVerify(t), c, n - 2);
    } else {
      st', left := st, n - 1;
    }
  }

  /** New tags that Load at stage `next` leave the recovery going at that stage. */
  lemma TagsGoing(st: Store, u: Uid, stage: Stage, tags: Tags, next: Stage)
    requires Going(st, u, stage) && (FicsExact(st, u, st.wi.value.id) || (stage == NotStarted && next == InProgress))
    requires Load(st.uamiId, Req(st.recs[u]), st.wi.value.id, st.recs[u].plan, PutTags(st, tags).uami) == Some(next)
    ensures Going(PutTags(st, tags), u, next)
  {
    hide Load;
    hide RecoverableUami;
    hide PlanMatches;
    LoadFacts(st.uamiId, Req(st.recs[u]), st.wi.value.id, st.recs[u].plan, PutTags(st, tags).uami);
    hide AtStage;
    hide EqualFold;
  }

  lemma MarkedGoing(st: Store, u: Uid)
    requires Going(st, u, NotStarted)
    ensures Going(Write(st, u, MarkPut(st.wi.value.id, st.uami.value.tags)), u, InProgress)
  {
    hide Load;
    hide MergeTags;
    hide Externals;
    StageIs(st, u, NotStarted);
    AfterMark(st.uamiId, Req(st.recs[u]), st.wi.value.id, st.recs[u].plan, st.uami.value, st.uami.value.tags);
    TagsGoing(st, u, NotStarted, MergeTags(st.uami.value.tags, FenceTags(Req(st.recs[u]), st.wi.value.id.uid)), InProgress);
  }

  // ---------------------------------------------------------------- EnsureFederatedIdentityCredential

  lemma FicSegment(st: Store, u: Uid, del: bool, c: Choice, stage: Stage, n: nat) returns (st': Store, left: nat)
    requires Going(st, u, stage) && stage != NotStarted && n >= 3
    ensures st' == st.(fics := st'.fics) && Going(st', u, stage) && FicsExact(st', u, st.wi.value.id) && left >= n - 3
    ensures var t := st.wi.value.id;
            Calls(st, Busy(u, del, FicGet(t)), c, n) == Calls(st', Busy(u, del, SaGet(t)), c, left)
  {
    hide Calls;
    hide Going;
    hide StageOf;
    hide FicsExact;
    hide Upsert;
    StageIs(st, u, stage);
    var t := st.wi.value.id;
    FicsReach(st, u, stage);
    ReadCall(st, u, del, FicGet(t), c, n);
    if stage == InProgress {
      st', left := WriteFic(st, st.recs[u], t), n - 3;
      WriteCall(st, u, del, FicPut(t), c, n - 1);
      ReadCall(st', u, del, FicVerify(t), c, n - 2);
    } else {
      st', left := st, n - 2;
      ReadCall(st, u, del, FicVerify(t), c, n - 1);
    }
  }

  lemma FicsReach(st: Store, u: Uid, stage: Stage)
    requires Going(st, u, stage) && stage != NotStarted
    ensures st.uami.Some? && st.recs[u].plan.Some?
    ensures stage != InProgress ==> FicsExact(st, u, st.wi.value.id)
    ensures stage == InProgress ==>
              var st' := WriteFic(st, st.recs[u], st.wi.value.id); Going(st', u, stage) && FicsExact(st', u, st.wi.value.id)
  {
    hide RecoverableUami;
    hide AtStage;
    hide PlanMatches;
    hide Upsert;
    if stage == InProgress {
      RepairIsExact(st.uamiId, st.wi.value.id, st.recs[u].plan.value.tuple, st.fics);
    }
  }

  // ---------------------------------------------------------------- the ServiceAccount

  predicate SaAgrees(st: Store, u: Uid, t: Ident, saUid: Uid)
    requires u in st.recs
  {
    if st.sa.None? then saUid == ""
    else saUid != "" && st.sa.value.uid == saUid && st.recs[u].plan.Some? && FieldsMatch(t.uid, st.recs[u].plan.value, st.sa.value)
  }

  lemma TransferAgrees(st: Store, u: Uid, stage: Stage)
    requires Going(st, u, stage) && st.sa.Some? && FicsExact(st, u, st.wi.value.id)
    ensures RecoverableSa(st.recs[u].source, st.wi.value.id.uid, st.sa.value) && st.sa.value.uid != ""
    ensures var t, sa, plan := st.wi.value.id, st.sa.value, st.recs[u].plan.value;
            (Transferred(t.uid, plan, sa) == sa ==> SaAgrees(st, u, t, sa.uid)) &&
            var st' := WriteSa(st, st.recs[u], t, sa);
            Going(st', u, stage) && FicsExact(st', u, t) && SaAgrees(st', u, t, sa.uid)
  {
    hide RecoverableUami;
    hide AtStage;
    hide PlanMatches;
    hide ExactFics;
    hide RecoverableFics;
  }

  lemma SaGetGoes(st: Store, u: Uid, del: bool, stage: Stage)
    requires Going(st, u, stage) && FicsExact(st, u, st.wi.value.id)
    ensures var r, t := st.recs[u], st.wi.value.id;
            r.plan.Some? &&
            AfterSaGet(st, r, del, t) ==
              Busy(u, del,
                if st.sa.None? then CommitRecovery(t, "")
                else if Transferred(t.uid, r.plan.value, st.sa.value) == st.sa.value then SaVerify(t, st.sa.value.uid)
                else SaPut(t, st.sa.value))
  {
    hide Externals;
    hide Transferred;
    hide RecoverableSa;
    if st.sa.Some? {
      TransferAgrees(st, u, stage);
    }
  }

  lemma SaVerifyGoes(st: Store, u: Uid, del: bool, t: Ident, saUid: Uid)
    requires u in st.recs && st.recs[u].uid == u && st.sa.Some? && SaAgrees(st, u, t, saUid)
    ensures AfterSaVerify(st, st.recs[u], del, t, saUid) == Busy(u, del, CommitRecovery(t, saUid))
  {
    hide FieldsMatch;
  }

  function Committed(s: Stage): Stage { if s == Complete then Complete else CommittedFenced }

  ghost predicate CommitReady(st: Store, u: Uid, t: Ident, stage: Stage, saUid: Uid) {
    Going(st, u, stage) && stage != NotStarted && t == st.wi.value.id && FicsExact(st, u, t) && SaAgrees(st, u, t, saUid)
  }

  /** The stores when the ServiceAccount has been read and, where it differs, patched. */
  function SaDone(st: Store, u: Uid): Store
    requires TargetPresent(st, u)
  {
    if st.sa.None? || st.recs[u].plan.None? ||
       Transferred(st.wi.value.id.uid, st.recs[u].plan.value, st.sa.value) == st.sa.value then st
    else WriteSa(st, st.recs[u], st.wi.value.id, st.sa.value)
  }

  function SaUidOf(st: Store): Uid { if st.sa.Some? then st.sa.value.uid else "" }

  lemma SaDoneIsReady(st: Store, u: Uid, stage: Stage)
    requires Going(st, u, stage) && stage != NotStarted && FicsExact(st, u, st.wi.value.id)
    ensures CommitReady(SaDone(st, u), u, st.wi.value.id, stage, SaUidOf(st))
    ensures st.sa.Some? ==> SaUidOf(st) != ""
  {
    hide Going;
    hide FicsExact;
    hide Transferred;
    hide FieldsMatch;
    StageIs(st, u, stage);
    if st.sa.Some? {
      TransferAgrees(st, u, stage);
    }
  }

  lemma SaPatchedCalls(st: Store, u: Uid, del: bool, c: Choice, t: Ident, n: nat)
    requires TargetPresent(st, u) && t == st.wi.value.id && st.sa.Some? && st.recs[u].plan.Some? && n >= 2
    requires Transferred(t.uid, st.recs[u].plan.value, st.sa.value) != st.sa.value
    requires SaDone(st, u).recs == st.recs && SaDone(st, u).sa.Some? && SaAgrees(SaDone(st, u), u, t, st.sa.value.uid)
    ensures Calls(st, Busy(u, del, SaPut(t, st.sa.value)), c, n) ==
              Calls(SaDone(st, u), Busy(u, del, CommitRecovery(t, st.sa.value.uid)), c, n - 2)
  {
    hide Calls;
    hide Transferred;
    hide AfterSaVerify;
    hide SaAgrees;
    WriteCall(st, u, del, SaPut(t, st.sa.value), c, n);
    ReadCall(SaDone(st, u), u, del, SaVerify(t, st.sa.value.uid), c, n - 1);
    SaVerifyGoes(SaDone(st, u), u, del, t, st.sa.value.uid);
  }

  lemma SaSegment(st: Store, u: Uid, del: bool, c: Choice, stage: Stage, n: nat) returns (left: nat)
    requires Going(st, u, stage) && stage != NotStarted && FicsExact(st, u, st.wi.value.id) && n >= 3
    ensures CommitReady(SaDone(st, u), u, st.wi.value.id, stage, SaUidOf(st)) && left >= n - 3
    ensures var t := st.wi.value.id;
            Calls(st, Busy(u, del, SaGet(t)), c, n) == Calls(SaDone(st, u), Busy(u, del, CommitRecovery(t, SaUidOf(st))), c, left)
  {
    hide Calls;
    hide Going;
    hide Transferred;
    hide CommitReady;
    hide FicsExact;
    hide AfterSaGet;
    hide AfterSaVerify;
    hide SaAgrees;
    StageIs(st, u, stage);
    assert st.sa.None? ==> SaDone(st, u) == st;
    hide SaDone;
    SaDoneIsReady(st, u, stage);
    SaGetGoes(st, u, del, stage);
    var t := st.wi.value.id;
    ReadCall(st, u, del, SaGet(t), c, n);
    if st.sa.None? {
      left := n - 1;
    } else {
      SaAgreesAfter(st, u, t, stage);
      if Transferred(t.uid, st.recs[u].plan.value, st.sa.value) == st.sa.value {
        left := n - 2;
        SaVerifyGoes(st, u, del, t, st.sa.value.uid);
        ReadCall(st, u, del, SaVerify(t, st.sa.value.uid), c, n - 1);
      } else {
        left := n - 3;
        SaPatchedCalls(st, u, del, c, t, n - 1);
      }
    }
  }

  lemma SaAgreesAfter(st: Store, u: Uid, t: Ident, stage: Stage)
    requires TargetPresent(st, u) && st.sa.Some? && CommitReady(SaDone(st, u), u, t, stage, SaUidOf(st))
    ensures SaAgrees(SaDone(st, u), u, t, SaUidOf(st)) && SaDone(st, u).sa.Some? && SaDone(st, u).recs == st.recs
    ensures st.recs[u].plan.Some? ==>
              if Transferred(st.wi.value.id.uid, st.recs[u].plan.value, st.sa.value) == st.sa.value then SaDone(st, u) == st
              else SaDone(st, u) == WriteSa(st, st.recs[u], st.wi.value.id, st.sa.value)
  {
    hide Transferred;
    hide FieldsMatch;
    hide Going;
    hide FicsExact;
  }

  // ---------------------------------------------------------------- commitRecovery

  lemma LockedTargetIsValid(st: Store, u: Uid)
    requires TargetPresent(st, u) && LockHeld(st, st.recs[u])
    ensures Validate(st.recs[u], st.wi.value) == TargetOk
  {
  }

  /** The re-reads before the owner commit all succeed. */
  lemma CommitReads(st: Store, u: Uid, del: bool, c: Choice, stage: Stage, saUid: Uid, n: nat)
    requires TargetPresent(st, u) && CommitReady(st, u, st.wi.value.id, stage, saUid) && n >= 4
    ensures var t := st.wi.value.id;
            st.uami.Some? && StageOf(st, u, t) == Some(stage) &&
            Calls(st, Busy(u, del, CommitRecovery(t, saUid)), c, n) ==
              Calls(st, Busy(u, del, CommitFics(t, stage, st.uami.value.tags)), c, n - 4)
  {
    hide Calls;
    hide Going;
    hide FicsExact;
    hide Validate;
    hide FieldsMatch;
    hide StageOf;
    StageIs(st, u, stage);
    var t := st.wi.value.id;
    LockedTargetIsValid(st, u);
    ReadCall(st, u, del, CommitRecovery(t, saUid), c, n);
    ReadCall(st, u, del, CommitTarget(t, saUid), c, n - 1);
    ReadCall(st, u, del, CommitSa(t, saUid), c, n - 2);
    ReadCall(st, u, del, CommitGet(t), c, n - 3);
  }

  lemma CommittedGoing(st: Store, u: Uid)
    requires Going(st, u, InProgress) && FicsExact(st, u, st.wi.value.id)
    ensures Going(Write(st, u, CommitPut(st.wi.value.id, st.uami.value.tags)), u, CommittedFenced)
  {
    hide Load;
    hide MergeTags;
    hide Externals;
    StageIs(st, u, InProgress);
    AfterCommit(st.uamiId, Req(st.recs[u]), st.wi.value.id, st.recs[u].plan, st.uami.value, st.uami.value.tags);
    TagsGoing(st, u, InProgress, MergeTags(st.uami.value.tags, CommitTags(Req(st.recs[u]), st.wi.value.id.uid)), CommittedFenced);
  }

  /** From the credential check before the commit to the CommitVerified patch. */
  lemma CommitPutCalls(st: Store, u: Uid, del: bool, c: Choice, n: nat) returns (st': Store)
    requires Going(st, u, InProgress) && FicsExact(st, u, st.wi.value.id) && n >= 3
    ensures st.uami.Some? && st' == st.(uami := st'.uami) && Going(st', u, CommittedFenced)
    ensures Calls(st, Busy(u, del, CommitPut(st.wi.value.id, st.uami.value.tags)), c, n) ==
              Calls(st', Patching(u, del, PatchCommitVerified), c, n - 3)
  {
    hide Calls;
    hide Going;
    hide StageOf;
    hide MergeTags;
    hide ExactFics;
    StageIs(st, u, InProgress);
    var t := st.wi.value.id;
    CommittedGoing(st, u);
    st' := Write(st, u, CommitPut(t, st.uami.value.tags));
    StageIs(st', u, CommittedFenced);
    WriteCall(st, u, del, CommitPut(t, st.uami.value.tags), c, n);
    ReadCall(st', u, del, CommitVerify(t), c, n - 1);
    ReadCall(st', u, del, CommitFicsAfter(t), c, n - 2);
  }

  lemma CommitWrites(st: Store, u: Uid, del: bool, c: Choice, stage: Stage, n: nat) returns (st': Store, left: nat)
    requires Going(st, u, stage) && stage != NotStarted && FicsExact(st, u, st.wi.value.id) && n >= 5
    ensures st.uami.Some? && st' == st.(uami := st'.uami) && Going(st', u, Committed(stage)) && left >= n - 4
    ensures Calls(st, Busy(u, del, CommitFics(st.wi.value.id, stage, st.uami.value.tags)), c, n) ==
              Calls(st', Patching(u, del, PatchCommitVerified), c, left)
  {
    hide Calls;
    hide Going;
    hide StageOf;
    hide FicsExact;
    StageIs(st, u, stage);
    ReadCall(st, u, del, CommitFics(st.wi.value.id, stage, st.uami.value.tags), c, n);
    if stage == InProgress {
      st' := CommitPutCalls(st, u, del, c, n - 1);
      left := n - 4;
    } else {
      st', left := st, n - 1;
    }
  }

  // ---------------------------------------------------------------- finalizeRecovery

  lemma FinalizedGoing(st: Store, u: Uid)
    requires Going(st, u, CommittedFenced)
    ensures Going(Write(st, u, FinalizePut(st.wi.value.id, st.uami.value.tags)), u, Complete)
  {
    CommittedIsExact(st, u, CommittedFenced);
    hide Load;
    hide WithoutFence;
    hide Externals;
    hide FicsExact;
    StageIs(st, u, CommittedFenced);
    AfterFinalize(st.uamiId, Req(st.recs[u]), st.wi.value.id, st.recs[u].plan, st.uami.value, st.uami.value.tags);
    TagsGoing(st, u, CommittedFenced, WithoutFence(st.uami.value.tags), Complete);
  }

  lemma FinalizePutCalls(st: Store, u: Uid, del: bool, c: Choice, n: nat) returns (st': Store)
    requires Going(st, u, CommittedFenced) && FicsExact(st, u, st.wi.value.id) && n >= 3
    ensures st.uami.Some? && st' == st.(uami := st'.uami) && Going(st', u, Complete)
    ensures Calls(st, Busy(u, del, FinalizePut(st.wi.value.id, st.uami.value.tags)), c, n) ==
              Calls(st', Patching(u, del, PatchComplete), c, n - 3)
  {
    hide Calls;
    hide Going;
    hide StageOf;
    hide WithoutFence;
    hide ExactFics;
    StageIs(st, u, CommittedFenced);
    var t := st.wi.value.id;
    FinalizedGoing(st, u);
    st' := Write(st, u, FinalizePut(t, st.uami.value.tags));
    StageIs(st', u, Complete);
    WriteCall(st, u, del, FinalizePut(t, st.uami.value.tags), c, n);
    ReadCall(st', u, del, FinalizeVerify(t), c, n - 1);
    ReadCall(st', u, del, FinalizeFicsAfter(t), c, n - 2);
  }

  lemma CommittedIsExact(st: Store, u: Uid, stage: Stage)
    requires Going(st, u, stage) && (stage == CommittedFenced || stage == Complete)
    ensures FicsExact(st, u, st.wi.value.id)
  {
    hide UamiFits;
    hide SaFits;
    hide LockHeld;
    hide FicsExact;
  }

  lemma FinalizeReads(st: Store, u: Uid, del: bool, c: Choice, stage: Stage, n: nat)
    requires Going(st, u, stage) && (stage == CommittedFenced || stage == Complete) && n >= 2
    ensures var t := st.wi.value.id;
            FicsExact(st, u, t) && st.uami.Some? &&
            Calls(st, Busy(u, del, FinalizeGet(t)), c, n) ==
              Calls(st, if stage == Complete then Patching(u, del, PatchComplete) else Busy(u, del, FinalizePut(t, st.uami.value.tags)), c, n - 2)
  {
    hide Calls;
    hide Going;
    hide StageOf;
    hide FicsExact;
    hide LockHeld;
    StageIs(st, u, stage);
    CommittedIsExact(st, u, stage);
    ReadCall(st, u, del, FinalizeGet(st.wi.value.id), c, n);
    ReadCall(st, u, del, FinalizeFics(st.wi.value.id, stage, st.uami.value.tags), c, n - 1);
  }

  lemma FinalizeSegment(st: Store, u: Uid, del: bool, c: Choice, stage: Stage, n: nat) returns (st': Store, left: nat)
    requires Going(st, u, stage) && (stage == CommittedFenced || stage == Complete) && n >= 6
    ensures st' == st.(uami := st'.uami) && Going(st', u, Complete) && left >= n - 5
    ensures Calls(st, Busy(u, del, FinalizeGet(st.wi.value.id)), c, n) == Calls(st', Patching(u, del, PatchComplete), c, left)
  {
    hide Calls;
    hide FicsExact;
    FinalizeReads(st, u, del, c, stage, n);
    if stage == CommittedFenced {
      st' := FinalizePutCalls(st, u, del, c, n - 2);
      left := n - 5;
    } else {
      st', left := st, n - 2;
    }
    hide Going;
  }

  // ---------------------------------------------------------------- the reconciles

  const CALLS: nat := 24

  /** One reconcile of u with nobody else acting. */
  ghost function Reconciled(st: Store, u: Uid, c: Choice): Position
    requires u in st.recs
  {
    Calls(st, Enter(st.recs[u], c.configured), c, CALLS)
  }

  /** The four Azure and ServiceAccount operations of advanceRecovery, up to the status patch. */
  lemma AdvanceSegment(st: Store, u: Uid, del: bool, c: Choice, stage: Stage, n: nat) returns (st': Store, left: nat)
    requires Going(st, u, stage) && n >= 19
    ensures Going(st', u, Committed(Marked(stage))) && left >= n - 18
    ensures st'.sa.Some? ==> OwnedBy(st.recs[u].target, st'.sa.value)
    ensures st' == st.(uami := st'.uami, fics := st'.fics, sa := st'.sa, clock := st'.clock)
    ensures Calls(st, Busy(u, del, MarkGet(st.wi.value.id)), c, n) == Calls(st', Patching(u, del, PatchCommitVerified), c, left)
  {
    hide Going;
    hide Calls;
    hide FicsExact;
    hide SaAgrees;
    StageIs(st, u, stage);
    var st1, n1 := MarkSegment(st, u, del, c, stage, n);
    StageIs(st1, u, Marked(stage));
    var st2, n2 := FicSegment(st1, u, del, c, Marked(stage), n1);
    StageIs(st2, u, Marked(stage));
    var n3 := SaSegment(st2, u, del, c, Marked(stage), n2);
    SaLeavesTheRest(st2, u);
    var st3 := SaDone(st2, u);
    ReadyAccountIsOwned(st3, u, Marked(stage), SaUidOf(st2));
    hide SaDone;
    CommitReads(st3, u, del, c, Marked(stage), SaUidOf(st2), n3);
    st', left := CommitWrites(st3, u, del, c, Marked(stage), n3 - 4);
  }

  lemma ReadyAccountIsOwned(st: Store, u: Uid, stage: Stage, saUid: Uid)
    requires TargetPresent(st, u) && CommitReady(st, u, st.wi.value.id, stage, saUid)
    ensures st.sa.Some? ==> OwnedBy(st.recs[u].target, st.sa.value)
  {
    hide Going;
    hide FicsExact;
  }

  lemma SaLeavesTheRest(st: Store, u: Uid)
    requires TargetPresent(st, u)
    ensures SaDone(st, u) == st.(sa := SaDone(st, u).sa, clock := SaDone(st, u).clock) &&
            TargetPresent(SaDone(st, u), u)
  {
    hide Transferred;
  }
}
