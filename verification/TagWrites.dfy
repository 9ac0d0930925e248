/** The three tag writes of a recovery move the UAMI exactly one stage forward, even when the
    tags they are computed from were read earlier, as long as the operator's markers have not
    changed since. */
module TagWrites {
  import opened OwnershipTags
  import opened Azure

  lemma BaseOwnershipByMarkers(key: Key, a: Tags, b: Tags)
    requires SameMarkers(a, b)
    ensures BaseOwnership(key, a) <==> BaseOwnership(key, b)
  {
    assert TagValue(a, OwnerUid) == TagValue(b, OwnerUid);
    var full := OperatorOwnershipTags(TagValue(a, OwnerUid), true)[LogicalKeyTag := LogicalKey(key)];
    forall k | k in full
      ensures k in a && a[k] == full[k] <==> k in b && b[k] == full[k]
    {
      assert !k.Other?;
      assert TagValue(a, k) == TagValue(b, k);
    }
  }

  /** Changing recovery markers, or replacing the owner, keeps the base ownership. */
  lemma BaseOwnershipSurvives(key: Key, a: Tags, b: Tags)
    requires BaseOwnership(key, a)
    requires OwnerUid in b
    requires forall k: TagKey | k in {ManagedBy, CreatedBy, ApiGroup, LogicalKeyTag} :: (k in a <==> k in b) && TagValue(a, k) == TagValue(b, k)
    ensures BaseOwnership(key, b)
  {
    var fullA := OperatorOwnershipTags(TagValue(a, OwnerUid), true)[LogicalKeyTag := LogicalKey(key)];
    var fullB := OperatorOwnershipTags(TagValue(b, OwnerUid), true)[LogicalKeyTag := LogicalKey(key)];
    forall k | k in fullB
      ensures k in b && b[k] == fullB[k]
    {
      if k != OwnerUid {
        assert k in fullA && k in a && a[k] == fullA[k];
        assert TagValue(a, k) == TagValue(b, k);
      }
    }
  }

  lemma BaseHasOwner(key: Key, tags: Tags)
    requires BaseOwnership(key, tags)
    ensures OwnerUid in tags
  {
    assert OwnerUid in OperatorOwnershipTags(TagValue(tags, OwnerUid), true)[LogicalKeyTag := LogicalKey(key)];
  }

  lemma LoadFacts(uamiId: string, r: Request, t: Ident, plan: Option<Plan>, uami: Option<Uami>)
    requires WellFormed(r, t.uid) && Load(uamiId, r, t, plan, uami).Some?
    ensures AtStage(r, t.uid, uami.value, Load(uamiId, r, t, plan, uami).value)
    ensures RecoverableUami(uamiId, t.key, uami.value) && PlanMatches(uami.value, plan.value)
  {
    StagesAreDisjoint(r, t.uid, uami.value);
  }

  lemma LoadReaches(uamiId: string, r: Request, t: Ident, plan: Option<Plan>, u: Uami, s: Stage)
    requires WellFormed(r, t.uid) && plan.Some?
    requires RecoverableUami(uamiId, t.key, u) && PlanMatches(u, plan.value) && AtStage(r, t.uid, u, s)
    ensures Load(uamiId, r, t, plan, Some(u)) == Some(s)
  {
    StagesAreDisjoint(r, t.uid, u);
  }

  lemma AfterMark(uamiId: string, r: Request, t: Ident, plan: Option<Plan>, u: Uami, tags: Tags)
    requires WellFormed(r, t.uid) && SameMarkers(tags, u.tags)
    requires Load(uamiId, r, t, plan, Some(u)) == Some(NotStarted)
    ensures Load(uamiId, r, t, plan, Some(u.(tags := MergeTags(tags, FenceTags(r, t.uid))))) == Some(InProgress)
    ensures var u' := u.(tags := MergeTags(tags, FenceTags(r, t.uid)));
            Owner(u') == r.source && Fence(u') == r.uid && FenceTarget(u') == t.uid && LastRecovery(u') == LastRecovery(u)
    ensures Owner(u) == r.source && Unfenced(u)
    ensures AtStage(r, t.uid, u, NotStarted) &&
            AtStage(r, t.uid, u.(tags := MergeTags(tags, FenceTags(r, t.uid))), InProgress)
  {
    var u' := u.(tags := MergeTags(tags, FenceTags(r, t.uid)));
    LoadFacts(uamiId, r, t, plan, Some(u));
    BaseOwnershipByMarkers(t.key, tags, u.tags);
    BaseHasOwner(t.key, tags);
    MergeKeepsTheRest(tags, FenceTags(r, t.uid));
    assert TagValue(u'.tags, LastRecoveryUid) == TagValue(tags, LastRecoveryUid) == TagValue(u.tags, LastRecoveryUid);
    assert TagValue(u'.tags, OwnerUid) == TagValue(tags, OwnerUid) == TagValue(u.tags, OwnerUid);
    BaseOwnershipSurvives(t.key, tags, u'.tags);
    LoadReaches(uamiId, r, t, plan, u', InProgress);
  }

  lemma AfterCommit(uamiId: string, r: Request, t: Ident, plan: Option<Plan>, u: Uami, tags: Tags)
    requires WellFormed(r, t.uid) && SameMarkers(tags, u.tags)
    requires Load(uamiId, r, t, plan, Some(u)) == Some(InProgress)
    ensures Load(uamiId, r, t, plan, Some(u.(tags := MergeTags(tags, CommitTags(r, t.uid))))) == Some(CommittedFenced)
    ensures var u' := u.(tags := MergeTags(tags, CommitTags(r, t.uid)));
            Owner(u') == t.uid && Fence(u') == r.uid && FenceTarget(u') == t.uid && LastRecovery(u') == r.uid
    ensures Owner(u) == r.source && Fence(u) == r.uid
    ensures AtStage(r, t.uid, u, InProgress) &&
            AtStage(r, t.uid, u.(tags := MergeTags(tags, CommitTags(r, t.uid))), CommittedFenced)
  {
    var u' := u.(tags := MergeTags(tags, CommitTags(r, t.uid)));
    LoadFacts(uamiId, r, t, plan, Some(u));
    BaseOwnershipByMarkers(t.key, tags, u.tags);
    MergeKeepsTheRest(tags, CommitTags(r, t.uid));
    assert TagValue(u'.tags, RecoveryUid) == TagValue(tags, RecoveryUid) == TagValue(u.tags, RecoveryUid);
    assert TagValue(u'.tags, TargetUid) == TagValue(tags, TargetUid) == TagValue(u.tags, TargetUid);
    BaseOwnershipSurvives(t.key, tags, u'.tags);
    LoadReaches(uamiId, r, t, plan, u', CommittedFenced);
  }

  lemma AfterFinalize(uamiId: string, r: Request, t: Ident, plan: Option<Plan>, u: Uami, tags: Tags)
    requires WellFormed(r, t.uid) && SameMarkers(tags, u.tags)
    requires Load(uamiId, r, t, plan, Some(u)) == Some(CommittedFenced)
    ensures Load(uamiId, r, t, plan, Some(u.(tags := WithoutFence(tags)))) == Some(Complete)
    ensures var u' := u.(tags := WithoutFence(tags)); Owner(u') == t.uid && Unfenced(u') && LastRecovery(u') == r.uid
    ensures Owner(u) == t.uid && Fence(u) == r.uid
    ensures AtStage(r, t.uid, u, CommittedFenced) && AtStage(r, t.uid, u.(tags := WithoutFence(tags)), Complete)
  {
    var u' := u.(tags := WithoutFence(tags));
    LoadFacts(uamiId, r, t, plan, Some(u));
    BaseOwnershipByMarkers(t.key, tags, u.tags);
    BaseHasOwner(t.key, tags);
    assert TagValue(u'.tags, OwnerUid) == TagValue(tags, OwnerUid) == TagValue(u.tags, OwnerUid);
    assert TagValue(u'.tags, LastRecoveryUid) == TagValue(tags, LastRecoveryUid) == TagValue(u.tags, LastRecoveryUid);
    BaseOwnershipSurvives(t.key, tags, u'.tags);
    LoadReaches(uamiId, r, t, plan, u', Complete);
  }
}
