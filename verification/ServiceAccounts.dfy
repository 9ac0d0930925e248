/** ServiceAccount ownership and provenance: the pure decisions of the normal reconciler
    (inspectServiceAccount, ensureServiceAccount, deleteServiceAccountIfOwned) and of the
    recovery (internal/controller/workloadidentityrecovery_serviceaccount.go). */
module ServiceAccounts {
  import opened OwnershipTags
  import opened Azure
  import opened Resources

  datatype LabelKey = UseLabel | ManagedByLabel | OwnerLabel | CreatedByLabel | OtherLabel(name: string)
  datatype AnnotationKey = ClientIdAnnotation | TenantIdAnnotation | OtherAnnotation(name: string)

  type Labels = map<LabelKey, string>
  type Annotations = map<AnnotationKey, string>

  datatype Sa = Sa(uid: Uid, version: nat, labels: Labels, annotations: Annotations)

  /** serviceAccountReconcileState. */
  datatype SaState = Established(provenance: Provenance) | NotEstablished

  datatype Inspection =
    | Inspected(state: SaState)
    | ForeignOwner(owner: Uid)
    | SaConflict

  function Label(sa: Sa, k: LabelKey): string {
    if k in sa.labels then sa.labels[k] else ""
  }

  function Annotation(sa: Sa, k: AnnotationKey): string {
    if k in sa.annotations then sa.annotations[k] else ""
  }

  predicate OwnedBy(uid: Uid, sa: Sa) { Label(sa, OwnerLabel) == uid }

  /** validateServiceAccountOwnership; None when it returns no error. */
  function OwnershipError(uid: Uid, sa: Sa): Option<Inspection> {
    if Label(sa, OwnerLabel) != "" && Label(sa, OwnerLabel) != uid then Some(ForeignOwner(Label(sa, OwnerLabel)))
    else if Label(sa, ManagedByLabel) == OPERATOR_NAME && Label(sa, OwnerLabel) == "" then Some(SaConflict)
    else None
  }

  predicate Unannotated(sa: Sa) {
    Annotation(sa, ClientIdAnnotation) == "" && Annotation(sa, TenantIdAnnotation) == ""
  }

  predicate SubjectRecorded(w: Wi) { w.subject != "" && w.subject == Subject(w.id) }

  /** persistedServiceAccountProvenance. */
  function Persisted(w: Wi): Option<Provenance> {
    if SubjectRecorded(w) then w.provenance else None
  }

  /** The status speaks about the configured account and says Created or Adopted. */
  predicate Recorded(w: Wi) {
    w.subject == "system:serviceaccount:" + w.id.key.ns + ":" + w.id.saName && w.provenance.Some?
  }

  lemma PersistedIs(w: Wi)
    ensures Persisted(w) == if Recorded(w) then w.provenance else None
  {
  }

  function ProvenanceFromLabels(uid: Uid, sa: Sa): Provenance {
    if Label(sa, CreatedByLabel) == TRUE_VALUE && OwnedBy(uid, sa) then Created else Adopted
  }

  function Inspect(w: Wi, sa: Option<Sa>): Inspection {
    if sa.None? then
      if Persisted(w).Some? then Inspected(Established(Persisted(w).value))
      else if SubjectRecorded(w) && w.saUid != "" then Inspected(Established(Adopted))
      else Inspected(NotEstablished)
    else if OwnershipError(w.id.uid, sa.value).Some? then OwnershipError(w.id.uid, sa.value).value
    else if Persisted(w).Some? then Inspected(Established(Persisted(w).value))
    else if (SubjectRecorded(w) && w.saUid != "") || OwnedBy(w.id.uid, sa.value) then
      Inspected(Established(ProvenanceFromLabels(w.id.uid, sa.value)))
    else if !Unannotated(sa.value) then SaConflict
    else Inspected(NotEstablished)
  }

  /** The status has seen the configured account, if only by its UID. */
  predicate Seen(w: Wi) {
    w.subject == "system:serviceaccount:" + w.id.key.ns + ":" + w.id.saName && (w.provenance.Some? || w.saUid != "")
  }

  /** What an inspection answers. An account with another owner, one with the operator's name but no owner,
      and an unknown one that already names an identity are refused; otherwise the relationship is
      the recorded one, or is read off the labels of an account seen or owned before, or is open. */
  lemma InspectionIs(w: Wi, sa: Option<Sa>)
    requires w.id.uid != ""
    ensures forall o :: Inspect(w, sa) == ForeignOwner(o) <==> sa.Some? && Label(sa.value, OwnerLabel) == o && o != "" && o != w.id.uid
    ensures Inspect(w, sa) == SaConflict <==>
              sa.Some? && Label(sa.value, OwnerLabel) == "" &&
              (Label(sa.value, ManagedByLabel) == "azure-workload-identity-operator" ||
               (!Seen(w) && (Annotation(sa.value, ClientIdAnnotation) != "" || Annotation(sa.value, TenantIdAnnotation) != "")))
    ensures Inspect(w, sa).Inspected? && Recorded(w) ==> Inspect(w, sa).state == Established(w.provenance.value)
    ensures Inspect(w, sa).Inspected? && !Recorded(w) ==>
              if !Seen(w) && (sa.Some? ==> Label(sa.value, OwnerLabel) == "") then Inspect(w, sa).state == NotEstablished
              else Inspect(w, sa).state.Established? &&
                   (Inspect(w, sa).state.provenance == Created <==>
                      sa.Some? && Label(sa.value, CreatedByLabel) == "true" && Label(sa.value, OwnerLabel) == w.id.uid)
  {
  }

  function DesiredLabels(uid: Uid, created: bool): Labels {
    map[UseLabel := TRUE_VALUE, ManagedByLabel := OPERATOR_NAME, OwnerLabel := uid, CreatedByLabel := FormatBool(created)]
  }

  function DesiredAnnotations(clientId: string, tenantId: string): Annotations {
    if tenantId != "" then map[ClientIdAnnotation := clientId, TenantIdAnnotation := tenantId]
    else map[ClientIdAnnotation := clientId]
  }

  /** The account carries what a pod needs to act as the managed identity, and who manages it. */
  predicate Equipped(sa: Sa, uid: Uid, p: Provenance, clientId: string, tenantId: string) {
    Label(sa, UseLabel) == "true" && Label(sa, ManagedByLabel) == "azure-workload-identity-operator" && Label(sa, OwnerLabel) == uid &&
    Label(sa, CreatedByLabel) == (if p == Created then "true" else "false") &&
    Annotation(sa, ClientIdAnnotation) == clientId && (tenantId != "" ==> Annotation(sa, TenantIdAnnotation) == tenantId)
  }

  /** Merging the desired labels and annotations into anything equips the account. */
  lemma DesiredEquips(sa: Sa, uid: Uid, p: Provenance, clientId: string, tenantId: string)
    ensures var labels, annotations := sa.labels + DesiredLabels(uid, p == Created), sa.annotations + DesiredAnnotations(clientId, tenantId);
            Equipped(sa.(labels := labels, annotations := annotations), uid, p, clientId, tenantId)
  {
    var labels := DesiredLabels(uid, p == Created);
    assert labels[UseLabel] == TRUE_VALUE && labels[ManagedByLabel] == OPERATOR_NAME && labels[OwnerLabel] == uid;
    assert labels[CreatedByLabel] == FormatBool(p == Created);
    assert DesiredAnnotations(clientId, tenantId)[ClientIdAnnotation] == clientId;
  }

  /** What a merge patch from `current` to `desired` sends: the entries that differ. */
  function Changed<K(==), V(==)>(current: map<K, V>, desired: map<K, V>): map<K, V> {
    map k | k in desired && (k !in current || current[k] != desired[k]) :: desired[k]
  }

  /** On the account it was computed from, the merge patch has the intended effect. */
  lemma ChangedCompletes<K, V>(current: map<K, V>, desired: map<K, V>)
    ensures current + Changed(current, current + desired) == current + desired
  {
    assert (current + Changed(current, current + desired)).Keys == (current + desired).Keys;
  }

  /** What ensureServiceAccount decides from the state inspected earlier and the account it finds now. */
  datatype EnsureDecision =
    | CreateAccount(provenance: Provenance)
    | PatchAccount(provenance: Provenance, labels: Labels, annotations: Annotations)
    | KeepAccount(provenance: Provenance, saUid: Uid)
    | RefuseAccount

  function DecideEnsure(w: Wi, state: SaState, clientId: string, tenantId: string, sa: Option<Sa>): EnsureDecision {
    if sa.None? then CreateAccount(if state.Established? then state.provenance else Created)
    else if OwnershipError(w.id.uid, sa.value).Some? then RefuseAccount
    else if state.NotEstablished? && !Unannotated(sa.value) then RefuseAccount
    else
      var provenance := if state.Established? then state.provenance else Adopted;
      var labels := sa.value.labels + DesiredLabels(w.id.uid, provenance == Created);
      var annotations := sa.value.annotations + DesiredAnnotations(clientId, tenantId);
      if labels == sa.value.labels && annotations == sa.value.annotations then KeepAccount(provenance, sa.value.uid)
      else PatchAccount(provenance, Changed(sa.value.labels, labels), Changed(sa.value.annotations, annotations))
  }

  /** Every account created with these labels and annotations is equipped. */
  ghost predicate EquipsNew(labels: Labels, annotations: Annotations, uid: Uid, p: Provenance, clientId: string, tenantId: string) {
    forall saUid: Uid, version: nat :: Equipped(Sa(saUid, version, labels, annotations), uid, p, clientId, tenantId)
  }

  /** Whatever the decision writes or keeps ends equipped: a new account, the one found after its patch, or
      the one found as it is. */
  lemma DecisionEquips(w: Wi, state: SaState, clientId: string, tenantId: string, sa: Option<Sa>)
    ensures var d := DecideEnsure(w, state, clientId, tenantId, sa);
            match d
            case CreateAccount(p) =>
              sa.None? && EquipsNew(DesiredLabels(w.id.uid, p == Created), DesiredAnnotations(clientId, tenantId), w.id.uid, p, clientId, tenantId)
            case PatchAccount(p, labels, annotations) =>
              sa.Some? &&
              Equipped(sa.value.(labels := sa.value.labels + labels, annotations := sa.value.annotations + annotations), w.id.uid, p, clientId, tenantId)
            case KeepAccount(p, uid) => sa.Some? && uid == sa.value.uid && Equipped(sa.value, w.id.uid, p, clientId, tenantId)
            case RefuseAccount => sa.Some?
  {
    var p := if state.Established? then state.provenance else if sa.None? then Created else Adopted;
    var labels, annotations := DesiredLabels(w.id.uid, p == Created), DesiredAnnotations(clientId, tenantId);
    if sa.None? {
      forall uid: Uid, version: nat
        ensures Equipped(Sa(uid, version, labels, annotations), w.id.uid, p, clientId, tenantId)
      {
        DesiredEquips(Sa(uid, version, map[], map[]), w.id.uid, p, clientId, tenantId);
        assert map[] + labels == labels && map[] + annotations == annotations;
      }
    } else {
      DesiredEquips(sa.value, w.id.uid, p, clientId, tenantId);
      ChangedCompletes(sa.value.labels, labels);
      ChangedCompletes(sa.value.annotations, annotations);
    }
    hide Equipped;
    hide DesiredLabels;
    hide DesiredAnnotations;
    hide Changed;
    hide Unannotated;
    hide OwnershipError;
  }

  /** deleteServiceAccountIfOwned deletes the account it found. */
  predicate Deletable(w: Wi, sa: Sa) {
    if Persisted(w).Some? then Persisted(w) == Some(Created)
    else Label(sa, CreatedByLabel) == TRUE_VALUE && Label(sa, OwnerLabel) == w.id.uid
  }

  /** The record says that the operator made the account; without a record, the account's own labels say
      that the operator made it for this very instance. */
  predicate MadeFor(w: Wi, sa: Sa) {
    if Recorded(w) then w.provenance == Some(Created)
    else Label(sa, CreatedByLabel) == "true" && Label(sa, OwnerLabel) == w.id.uid
  }

  lemma DeletableIs(w: Wi, sa: Sa)
    ensures Deletable(w, sa) <==> MadeFor(w, sa)
  {
  }

  /** validateRecoverableServiceAccount returns no error. */
  predicate RecoverableSa(source: Uid, target: Uid, sa: Sa) {
    var owner := Label(sa, OwnerLabel);
    if owner == source then Label(sa, ManagedByLabel) == OPERATOR_NAME
    else if owner == "" then Label(sa, ManagedByLabel) == "" && Label(sa, CreatedByLabel) == "" && Unannotated(sa)
    else owner == target
  }

  function TransferLabels(target: Uid): Labels {
    map[UseLabel := TRUE_VALUE, ManagedByLabel := OPERATOR_NAME, OwnerLabel := target]
  }

  function TransferAnnotations(plan: Plan): Annotations {
    map[ClientIdAnnotation := plan.clientId, TenantIdAnnotation := plan.tenantId]
  }

  /** The account after transferRecoveryServiceAccount, before the version moves. */
  function Transferred(target: Uid, plan: Plan, sa: Sa): Sa {
    sa.(labels := sa.labels + TransferLabels(target), annotations := sa.annotations + TransferAnnotations(plan))
  }

  /** recoveryServiceAccountFieldsMatch. */
  predicate FieldsMatch(target: Uid, plan: Plan, sa: Sa) {
    Label(sa, UseLabel) == TRUE_VALUE && Label(sa, ManagedByLabel) == OPERATOR_NAME &&
    Label(sa, OwnerLabel) == target &&
    Annotation(sa, ClientIdAnnotation) == plan.clientId && Annotation(sa, TenantIdAnnotation) == plan.tenantId
  }
}
