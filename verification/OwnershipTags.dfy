/** Tag maps of Azure resources and the markers the operator keeps in them
    (internal/azure/ownership.go and the tag constants of workload_identity.go). */
module OwnershipTags {

  datatype Option<+T> = None | Some(value: T)

  /** A Kubernetes object UID; the empty string stands for "no UID". */
  type Uid = string

  /** The tag keys the operator gives a meaning to; every other key is Other. */
  datatype TagKey =
    | ManagedBy | CreatedBy | ApiGroup
    | LogicalKeyTag | OwnerUid | RecoveryUid | TargetUid | LastRecoveryUid
    | Other(name: string)

  /** A nil tag value counts as an absent key. */
  type Tags = map<TagKey, string>

  const OPERATOR_NAME := "azure-workload-identity-operator"
  const OPERATOR_API_GROUP := "workloadidentity.azure.micosolutions.se"
  const TRUE_VALUE := "true"
  const FALSE_VALUE := "false"

  function FormatBool(b: bool): string {
    if b then TRUE_VALUE else FALSE_VALUE
  }

  function TagValue(tags: Tags, k: TagKey): string {
    if k in tags then tags[k] else ""
  }

  function OperatorOwnershipTags(uid: Uid, created: bool): Tags {
    map[ManagedBy := OPERATOR_NAME, OwnerUid := uid, CreatedBy := FormatBool(created), ApiGroup := OPERATOR_API_GROUP]
  }

  function MergeTags(existing: Tags, desired: Tags): Tags {
    existing + desired
  }

  predicate HasTags(existing: Tags, desired: Tags) {
    forall k | k in desired :: k in existing && existing[k] == desired[k]
  }

  /** Tag maps that hold the same values under every key the operator reads or writes. */
  ghost predicate SameMarkers(a: Tags, b: Tags) {
    forall k: TagKey :: !k.Other? ==> (k in a <==> k in b) && TagValue(a, k) == TagValue(b, k)
  }

  /** Tag maps that hold the same values under every key of somebody else. */
  ghost predicate SameUnrelated(a: Tags, b: Tags) {
    forall k: TagKey :: k.Other? ==> (k in a <==> k in b) && TagValue(a, k) == TagValue(b, k)
  }

  lemma MergeKeepsTheRest(existing: Tags, desired: Tags)
    ensures HasTags(MergeTags(existing, desired), desired)
    ensures forall k: TagKey | k !in desired ::
              (k in MergeTags(existing, desired) <==> k in existing) &&
              TagValue(MergeTags(existing, desired), k) == TagValue(existing, k)
  {
  }
}
