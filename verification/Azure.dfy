/** The Azure side of the operator: the retained user-assigned identity (UAMI), its federated
    credentials, and the two independently written ownership classifiers
    (internal/azure/workload_identity.go and internal/azure/workload_identity_recovery.go). */
module Azure {
  import opened OwnershipTags

  /** Namespace and name of a WorkloadIdentity. */
  datatype Key = Key(ns: string, name: string)

  /** The immutable part of one WorkloadIdentity instance. */
  datatype Ident = Ident(uid: Uid, key: Key, ficName: string, saName: string)

  /** A user-assigned identity; nil properties count as empty strings. */
  datatype Uami = Uami(id: string, clientId: string, principalId: string, tenantId: string, tags: Tags)

  datatype Tuple = Tuple(issuer: string, subject: string, audiences: seq<string>)

  /** A federated credential; None stands for missing properties. */
  datatype Fic = Fic(name: string, id: string, tuple: Option<Tuple>)

  /** What preflight records and every later retry reuses. */
  datatype Plan = Plan(id: string, clientId: string, principalId: string, tenantId: string, tuple: Tuple)

  /** What the Azure half reads of a WorkloadIdentityRecovery. */
  datatype Request = Request(uid: Uid, source: Uid)

  datatype Stage = NotStarted | InProgress | CommittedFenced | Complete

  datatype Ownership =
    | Owned
    | RecoveryRequired(previous: Uid)
    | RecoveryInProgress
    | OwnershipConflict

  const AUDIENCE := "api://AzureADTokenExchange"

  /** Injective stand-in for the SHA-256 digest of "namespace/name". */
  function LogicalKey(key: Key): string { key.ns + "/" + key.name }

  function LowerChar(c: char): char {
    if 'A' <= c <= 'Z' then c - 'A' + 'a' else c
  }

  /** strings.EqualFold on the ASCII names Azure uses. */
  function Fold(s: string): string {
    seq(|s|, i requires 0 <= i < |s| => LowerChar(s[i]))
  }

  predicate EqualFold(a: string, b: string) { Fold(a) == Fold(b) }

  /** The same character, or the same ASCII letter in the other case. */
  predicate SameLetter(c: char, d: char) {
    c == d || ('A' <= c <= 'Z' && d as int == c as int + 32) || ('A' <= d <= 'Z' && c as int == d as int + 32)
  }

  /** Folding compares character by character, up to the case of letters. */
  lemma EqualFoldIs(a: string, b: string)
    ensures EqualFold(a, b) <==> |a| == |b| && forall i | 0 <= i < |a| :: SameLetter(a[i], b[i])
  {
    assert |Fold(a)| == |a| && |Fold(b)| == |b|;
    if EqualFold(a, b) {
      forall i | 0 <= i < |a|
        ensures SameLetter(a[i], b[i])
      {
        assert Fold(a)[i] == Fold(b)[i];
      }
    }
  }

  function FicId(uamiId: string, ficName: string): string {
    uamiId + "/federatedIdentityCredentials/" + ficName
  }

  function Owner(u: Uami): Uid { TagValue(u.tags, OwnerUid) }
  function Fence(u: Uami): Uid { TagValue(u.tags, RecoveryUid) }
  function FenceTarget(u: Uami): Uid { TagValue(u.tags, TargetUid) }
  function LastRecovery(u: Uami): Uid { TagValue(u.tags, LastRecoveryUid) }

  predicate Unfenced(u: Uami) { Fence(u) == "" && FenceTarget(u) == "" }

  /** recoveryStage; None is the RecoveryMarkerConflict error. */
  function RecoveryStage(r: Request, current: Uid, u: Uami): Option<Stage> {
    if Owner(u) == current && Fence(u) == "" && FenceTarget(u) == "" && LastRecovery(u) == r.uid then
      Some(Complete)
    else if Owner(u) == current && Fence(u) == r.uid && FenceTarget(u) == current && LastRecovery(u) == r.uid then
      Some(CommittedFenced)
    else if Owner(u) == r.source && Fence(u) == r.uid && FenceTarget(u) == current then
      Some(InProgress)
    else if Owner(u) == r.source && Fence(u) == "" && FenceTarget(u) == "" then
      Some(NotStarted)
    else
      None
  }

  /** The operator's complete ownership markers for one logical identity, whoever the owner is. */
  predicate BaseOwnership(key: Key, tags: Tags) {
    HasTags(tags, OperatorOwnershipTags(TagValue(tags, OwnerUid), true)[LogicalKeyTag := LogicalKey(key)])
  }

  /** The checks getRecoveryUserAssignedIdentity makes on the identity it found. */
  predicate RecoverableUami(uamiId: string, key: Key, u: Uami) {
    EqualFold(u.id, uamiId) && BaseOwnership(key, u.tags) &&
    u.clientId != "" && u.principalId != "" && u.tenantId != ""
  }

  predicate PlanMatches(u: Uami, plan: Plan) {
    EqualFold(u.id, plan.id) && u.clientId == plan.clientId &&
    u.principalId == plan.principalId && u.tenantId == plan.tenantId
  }

  /** loadAndValidateRecoveryState; None is any RecoveryBlockedError. */
  function Load(uamiId: string, r: Request, t: Ident, plan: Option<Plan>, uami: Option<Uami>): (s: Option<Stage>)
    ensures s.Some? ==> uami.Some? && plan.Some?
  {
    if uami.None? || !RecoverableUami(uamiId, t.key, uami.value) then None
    else if RecoveryStage(r, t.uid, uami.value).None? then None
    else if plan.None? || !PlanMatches(uami.value, plan.value) then None
    else RecoveryStage(r, t.uid, uami.value)
  }

  /** A stage is loaded only for the very identity that was planned, under the expected resource ID and
      with the base ownership. */
  lemma LoadIsForThePlannedIdentity(uamiId: string, r: Request, t: Ident, plan: Option<Plan>, uami: Option<Uami>)
    requires Load(uamiId, r, t, plan, uami).Some?
    ensures uami.Some? && plan.Some?
    ensures EqualFold(uami.value.id, plan.value.id) && EqualFold(uami.value.id, uamiId)
    ensures uami.value.clientId == plan.value.clientId != ""
    ensures uami.value.principalId == plan.value.principalId != ""
    ensures uami.value.tenantId == plan.value.tenantId != ""
    ensures BaseOwnership(t.key, uami.value.tags)
  {
  }

  function PlanFor(u: Uami, issuer: string, subject: string): Plan {
    Plan(u.id, u.clientId, u.principalId, u.tenantId, Tuple(issuer, subject, [AUDIENCE]))
  }

  function FenceTags(r: Request, t: Uid): Tags { map[RecoveryUid := r.uid, TargetUid := t] }
  function CommitTags(r: Request, t: Uid): Tags { map[OwnerUid := t, LastRecoveryUid := r.uid] }
  function WithoutFence(tags: Tags): Tags { tags - {RecoveryUid, TargetUid} }

  function WorkloadIdentityTags(t: Ident): Tags {
    OperatorOwnershipTags(t.uid, true)[LogicalKeyTag := LogicalKey(t.key)]
  }

  /** validateUserAssignedIdentityOwnership, the classifier of the normal reconciler. */
  function Classify(t: Ident, u: Uami): Ownership {
    if Fence(u) != "" || FenceTarget(u) != "" then
      if Fence(u) == "" || FenceTarget(u) == "" then OwnershipConflict else RecoveryInProgress
    else if TagValue(u.tags, LogicalKeyTag) == LogicalKey(t.key) && Owner(u) != "" && Owner(u) != t.uid &&
            HasTags(u.tags, OperatorOwnershipTags(Owner(u), true)) then
      RecoveryRequired(Owner(u))
    else if HasTags(u.tags, WorkloadIdentityTags(t)) then Owned
    else OwnershipConflict
  }

  // ---------------------------------------------------------------- credentials

  predicate LocatedAt(fic: Fic, name: string, id: string) {
    EqualFold(fic.name, name) && EqualFold(fic.id, id)
  }

  /** Preflight accepts no credential or the one this identity owns. */
  predicate RecoverableFics(uamiId: string, t: Ident, fics: seq<Fic>) {
    |fics| <= 1 && (|fics| == 1 ==> LocatedAt(fics[0], t.ficName, FicId(uamiId, t.ficName)))
  }

  /** Exactly one credential, with the expected name, id and trust tuple. */
  predicate ExactFics(uamiId: string, t: Ident, tuple: Tuple, fics: seq<Fic>) {
    |fics| == 1 && LocatedAt(fics[0], t.ficName, FicId(uamiId, t.ficName)) && fics[0].tuple == Some(tuple)
  }

  /** CreateOrUpdate of one named credential under the UAMI; names compare case-insensitively. */
  function Upsert(uamiId: string, name: string, tuple: Tuple, fics: seq<Fic>): (r: seq<Fic>)
    ensures |r| >= 1
  {
    if fics == [] then [Fic(name, FicId(uamiId, name), Some(tuple))]
    else if EqualFold(fics[0].name, name) then [fics[0].(tuple := Some(tuple))] + fics[1..]
    else [fics[0]] + Upsert(uamiId, name, tuple, fics[1..])
  }

  function FindFic(name: string, fics: seq<Fic>): Option<Fic> {
    if fics == [] then None
    else if EqualFold(fics[0].name, name) then Some(fics[0])
    else FindFic(name, fics[1..])
  }

  /** A write is read back: the credential of that name carries exactly the written tuple and
      every other credential is untouched. */
  lemma {:induction false} UpsertThenFind(uamiId: string, name: string, tuple: Tuple, fics: seq<Fic>)
    ensures FindFic(name, Upsert(uamiId, name, tuple, fics)).Some?
    ensures FindFic(name, Upsert(uamiId, name, tuple, fics)).value.tuple == Some(tuple)
    ensures forall other: string | !EqualFold(other, name) ::
              FindFic(other, Upsert(uamiId, name, tuple, fics)) == FindFic(other, fics)
  {
    if fics == [] {
    } else if EqualFold(fics[0].name, name) {
      assert Upsert(uamiId, name, tuple, fics)[1..] == fics[1..];
    } else {
      UpsertThenFind(uamiId, name, tuple, fics[1..]);
      assert Upsert(uamiId, name, tuple, fics)[1..] == Upsert(uamiId, name, tuple, fics[1..]);
    }
  }

  /** The credential of the identity's configured name, at its place under the UAMI. */
  predicate IsTheCredential(uamiId: string, t: Ident, fic: Fic) {
    EqualFold(fic.name, t.ficName) && EqualFold(fic.id, uamiId + "/federatedIdentityCredentials/" + t.ficName)
  }

  /** The repair of recovery reaches the exact set precisely from the sets preflight accepts. */
  lemma RepairIsExact(uamiId: string, t: Ident, tuple: Tuple, fics: seq<Fic>)
    ensures ExactFics(uamiId, t, tuple, Upsert(uamiId, t.ficName, tuple, fics)) <==> RecoverableFics(uamiId, t, fics)
    ensures RecoverableFics(uamiId, t, fics) <==> fics == [] || (|fics| == 1 && IsTheCredential(uamiId, t, fics[0]))
    ensures ExactFics(uamiId, t, tuple, fics) <==> |fics| == 1 && IsTheCredential(uamiId, t, fics[0]) && fics[0].tuple == Some(tuple)
  {
    if |fics| > 1 {
      UpsertNeverShrinks(uamiId, t.ficName, tuple, fics);
    }
  }

  lemma {:induction false} UpsertNeverShrinks(uamiId: string, name: string, tuple: Tuple, fics: seq<Fic>)
    ensures |Upsert(uamiId, name, tuple, fics)| >= |fics|
  {
    if fics != [] {
      UpsertNeverShrinks(uamiId, name, tuple, fics[1..]);
    }
  }

  // ---------------------------------------------------------------- the two classifiers

  /** Admission: UIDs are non-empty and the source differs from the target. */
  predicate WellFormed(r: Request, t: Uid) {
    r.uid != "" && r.source != "" && t != "" && r.source != t
  }

  ghost predicate AtStage(r: Request, t: Uid, u: Uami, s: Stage) {
    match s
    case NotStarted => Owner(u) == r.source && Unfenced(u)
    case InProgress => Owner(u) == r.source && Fence(u) == r.uid && FenceTarget(u) == t
    case CommittedFenced => Owner(u) == t && Fence(u) == r.uid && FenceTarget(u) == t && LastRecovery(u) == r.uid
    case Complete => Owner(u) == t && Unfenced(u) && LastRecovery(u) == r.uid
  }

  /** The four stages exclude each other, so the order of the tests in recoveryStage is
      immaterial: it returns a stage exactly when the tags are at that stage. */
  lemma StagesAreDisjoint(r: Request, t: Uid, u: Uami)
    requires WellFormed(r, t)
    ensures forall s: Stage :: RecoveryStage(r, t, u) == Some(s) <==> AtStage(r, t, u, s)
    ensures forall s: Stage, s': Stage | AtStage(r, t, u, s) && AtStage(r, t, u, s') :: s == s'
  {
    forall s: Stage
      ensures RecoveryStage(r, t, u) == Some(s) <==> AtStage(r, t, u, s)
      ensures forall s': Stage | AtStage(r, t, u, s) && AtStage(r, t, u, s') :: s == s'
    {
      match s
      case NotStarted =>
      case InProgress =>
      case CommittedFenced =>
      case Complete =>
    }
  }

  /** What the operator's base ownership says of each tag. */
  lemma BaseOwnershipIs(key: Key, tags: Tags)
    ensures BaseOwnership(key, tags) <==>
              OwnerUid in tags && TagValue(tags, ManagedBy) == "azure-workload-identity-operator" &&
              TagValue(tags, CreatedBy) == "true" && TagValue(tags, ApiGroup) == "workloadidentity.azure.micosolutions.se" &&
              TagValue(tags, LogicalKeyTag) == key.ns + "/" + key.name
  {
    var full := OperatorOwnershipTags(TagValue(tags, OwnerUid), true)[LogicalKeyTag := LogicalKey(key)];
    assert full.Keys == {ManagedBy, CreatedBy, ApiGroup, OwnerUid, LogicalKeyTag};
    if BaseOwnership(key, tags) {
      assert HasTags(tags, full);
      assert ManagedBy in full && CreatedBy in full && ApiGroup in full && OwnerUid in full && LogicalKeyTag in full;
    }
  }

  /** The classifier's four answers over every tag map. Nothing but the complete operator tags of this
      logical identity makes a UAMI one to keep or to recover. */
  lemma ClassifyIsExact(t: Ident, u: Uami)
    ensures forall p: Uid ::
              Classify(t, u) == RecoveryRequired(p) <==>
                Fence(u) == "" && FenceTarget(u) == "" && Owner(u) == p && p != "" && p != t.uid && BaseOwnership(t.key, u.tags)
    ensures Classify(t, u) == Owned <==>
              Fence(u) == "" && FenceTarget(u) == "" && Owner(u) == t.uid && BaseOwnership(t.key, u.tags)
    ensures Classify(t, u) == RecoveryInProgress <==> Fence(u) != "" && FenceTarget(u) != ""
    ensures Classify(t, u) == OwnershipConflict <==>
              (Fence(u) == "") != (FenceTarget(u) == "") ||
              (Fence(u) == "" && FenceTarget(u) == "" &&
               (!BaseOwnership(t.key, u.tags) || (Owner(u) == "" && t.uid != "")))
  {
    BaseParts(t.key, u.tags);
    if HasTags(u.tags, WorkloadIdentityTags(t)) {
      assert OwnerUid in WorkloadIdentityTags(t);
    }
  }

  /** Over every tag map the normal classifier and the recovery classifier agree, in both directions,
      about a UAMI with the base ownership; without it neither answer is given. */
  lemma ClassifiersAgree(r: Request, t: Ident, u: Uami)
    requires WellFormed(r, t.uid)
    ensures Classify(t, u) == RecoveryRequired(r.source) <==>
              BaseOwnership(t.key, u.tags) && RecoveryStage(r, t.uid, u) == Some(NotStarted)
    ensures RecoveryStage(r, t.uid, u) in {Some(InProgress), Some(CommittedFenced)} ==> Classify(t, u) == RecoveryInProgress
    ensures Classify(t, u) == RecoveryInProgress && RecoveryStage(r, t.uid, u).Some? ==>
              RecoveryStage(r, t.uid, u) in {Some(InProgress), Some(CommittedFenced)}
    ensures Classify(t, u) == Owned && LastRecovery(u) == r.uid <==>
              BaseOwnership(t.key, u.tags) && RecoveryStage(r, t.uid, u) == Some(Complete)
  {
    ClassifyIsExact(t, u);
    StagesAreDisjoint(r, t.uid, u);
    hide BaseOwnership;
    hide Classify;
    hide RecoveryStage;
  }

  /** The base ownership is the logical key and the operator's tags for whoever the owner is. */
  lemma BaseParts(key: Key, tags: Tags)
    ensures BaseOwnership(key, tags) <==>
              TagValue(tags, LogicalKeyTag) == LogicalKey(key) && HasTags(tags, OperatorOwnershipTags(TagValue(tags, OwnerUid), true))
  {
    var owner := OperatorOwnershipTags(TagValue(tags, OwnerUid), true);
    var full := owner[LogicalKeyTag := LogicalKey(key)];
    assert LogicalKeyTag in full && LogicalKeyTag !in owner;
    assert forall k | k in owner :: k in full && full[k] == owner[k];
    assert forall k | k in full :: k == LogicalKeyTag || k in owner;
    assert |LogicalKey(key)| > 0;
  }
}
