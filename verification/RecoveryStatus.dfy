/** The status of a recovery as the controller edits it: a list of conditions changed in place
    (internal/controller/workloadidentityrecovery_status.go). */
module RecoveryStatus {
  import opened OwnershipTags
  import opened Azure
  import opened Resources

  datatype Condition = Condition(kind: CondType, status: CondStatus, reason: string, message: string, gen: nat)

  /** The list never holds two conditions of one type. */
  predicate Unique(conditions: seq<Condition>) {
    forall i, j | 0 <= i < j < |conditions| :: conditions[i].kind != conditions[j].kind
  }

  function Find(conditions: seq<Condition>, kind: CondType): Option<Condition> {
    if conditions == [] then None
    else if conditions[0].kind == kind then Some(conditions[0])
    else Find(conditions[1..], kind)
  }

  lemma {:induction false} FindAt(conditions: seq<Condition>, i: nat)
    requires Unique(conditions) && i < |conditions|
    ensures Find(conditions, conditions[i].kind) == Some(conditions[i])
  {
    if i > 0 {
      assert conditions[0].kind != conditions[i].kind;
      FindAt(conditions[1..], i - 1);
    }
  }

  lemma {:induction false} FindNone(conditions: seq<Condition>, kind: CondType)
    ensures Find(conditions, kind).None? <==> forall i | 0 <= i < |conditions| :: conditions[i].kind != kind
  {
    if conditions != [] {
      FindNone(conditions[1..], kind);
      assert forall i | 0 < i < |conditions| :: conditions[i] == conditions[1..][i - 1];
      assert forall i | 0 <= i < |conditions| - 1 :: conditions[1..][i] == conditions[i + 1];
    }
  }

  /** What the rest of the operator reads from the list. */
  function AsConds(conditions: seq<Condition>): Conds {
    map kind: CondType | Find(conditions, kind).Some? :: Find(conditions, kind).value.status == StatusTrue
  }

  /** One condition of each type that c has, in a fixed order. */
  function Listed(c: Conds, kinds: seq<CondType>): (list: seq<Condition>)
    ensures forall i | 0 <= i < |list| :: list[i].kind in kinds
  {
    if kinds == [] then []
    else
      var kind := kinds[0];
      (if kind in c then [Condition(kind, if c[kind] then StatusTrue else StatusFalse, "", "", 0)] else []) + Listed(c, kinds[1..])
  }

  const KINDS := [Progressing, Blocked, Completed, Failed]

  lemma {:induction false} ListedFinds(c: Conds, kinds: seq<CondType>, kind: CondType)
    requires forall i, j | 0 <= i < j < |kinds| :: kinds[i] != kinds[j]
    ensures Unique(Listed(c, kinds))
    ensures var found := Find(Listed(c, kinds), kind);
            (found.Some? <==> kind in kinds && kind in c) && (found.Some? ==> (found.value.status == StatusTrue) == c[kind])
  {
    if kinds != [] {
      ListedFinds(c, kinds[1..], kind);
      var k := kinds[0];
      var first := if k in c then [Condition(k, if c[k] then StatusTrue else StatusFalse, "", "", 0)] else [];
      FindAppend(first, Listed(c, kinds[1..]), kind);
    }
  }

  lemma ListedIsConds(c: Conds)
    ensures Unique(Listed(c, KINDS)) && AsConds(Listed(c, KINDS)) == c
  {
    var list := Listed(c, KINDS);
    assert KINDS[0] == Progressing && KINDS[1] == Blocked && KINDS[2] == Completed && KINDS[3] == Failed;
    forall kind: CondType
      ensures kind in AsConds(list) <==> kind in c
      ensures kind in c ==> AsConds(list)[kind] == c[kind]
    {
      assert kind.Progressing? || kind.Blocked? || kind.Completed? || kind.Failed?;
      ListedFinds(c, KINDS, kind);
    }
    ListedFinds(c, KINDS, Progressing);
  }

  /** after holds c for its type and what before held for every other type. */
  ghost predicate OnlySets(before: seq<Condition>, after: seq<Condition>, c: Condition) {
    Find(after, c.kind) == Some(c) && forall kind: CondType | kind != c.kind :: Find(after, kind) == Find(before, kind)
  }

  ghost predicate OnlyClears(before: seq<Condition>, after: seq<Condition>, cleared: CondType) {
    Find(after, cleared) == None && forall kind: CondType | kind != cleared :: Find(after, kind) == Find(before, kind)
  }

  lemma OnlySetsByIndex(before: seq<Condition>, after: seq<Condition>, i: nat, c: Condition)
    requires Unique(before) && i < |before| && before[i].kind == c.kind && after == before[i := c]
    ensures Unique(after) && OnlySets(before, after, c)
  {
    FindAt(after, i);
    forall kind: CondType | kind != c.kind
      ensures Find(after, kind) == Find(before, kind)
    {
      FindNone(before, kind);
      FindNone(after, kind);
      if j :| 0 <= j < |before| && before[j].kind == kind {
        FindAt(before, j);
        FindAt(after, j);
      } else {
        assert forall j | 0 <= j < |after| :: after[j].kind != kind;
      }
    }
  }

  lemma OnlySetsByAppend(before: seq<Condition>, c: Condition)
    requires Unique(before) && Find(before, c.kind).None?
    ensures Unique(before + [c]) && OnlySets(before, before + [c], c)
  {
    FindNone(before, c.kind);
    FindAt(before + [c], |before|);
    forall kind: CondType | kind != c.kind
      ensures Find(before + [c], kind) == Find(before, kind)
    {
      FindNone(before, kind);
      FindNone(before + [c], kind);
      if j :| 0 <= j < |before| && before[j].kind == kind {
        FindAt(before, j);
        FindAt(before + [c], j);
      }
    }
  }

  lemma {:induction false} FindAppend(a: seq<Condition>, b: seq<Condition>, kind: CondType)
    ensures Find(a + b, kind) == if Find(a, kind).Some? then Find(a, kind) else Find(b, kind)
  {
    if a == [] {
      assert a + b == b;
    } else {
      assert (a + b)[1..] == a[1..] + b;
      FindAppend(a[1..], b, kind);
    }
  }

  lemma ClearStep(before: seq<Condition>, c: Condition, kept: seq<Condition>, cleared: CondType)
    requires OnlyClears(before, kept, cleared)
    ensures OnlyClears(before + [c], if c.kind != cleared then kept + [c] else kept, cleared)
  {
    var kept' := if c.kind != cleared then kept + [c] else kept;
    assert Find([c], cleared) == if c.kind == cleared then Some(c) else None;
    FindAppend(kept, [c], cleared);
    forall kind: CondType | kind != cleared
      ensures Find(kept', kind) == Find(before + [c], kind)
    {
      FindAppend(before, [c], kind);
      FindAppend(kept, [c], kind);
      assert c.kind == cleared ==> Find([c], kind) == None;
    }
  }

  class Status {
    var conditions: seq<Condition>
    var plan: Option<Plan>
    var mutationStarted: bool
    var commitVerified: bool

    constructor ()
      ensures Valid() && conditions == [] && plan == None && !mutationStarted && !commitVerified
    {
      conditions, plan, mutationStarted, commitVerified := [], None, false, false;
    }

    /** The status of a record as it was read. */
    constructor Load(r: Recovery)
      ensures Valid() && Of(r) == r
    {
      conditions, plan, mutationStarted, commitVerified := Listed(r.conds, KINDS), r.plan, r.started, r.commitVerified;
      new;
      ListedIsConds(r.conds);
    }

    ghost predicate Valid()
      reads this
    {
      Unique(conditions)
    }

    /** A recovery with this status. */
    function Of(r: Recovery): Recovery
      reads this
    {
      r.(conds := AsConds(conditions), plan := plan, started := mutationStarted, commitVerified := commitVerified)
    }

    /** setRecoveryCondition. */
    method SetRecoveryCondition(c: Condition)
      requires Valid()
      modifies this`conditions
      ensures Valid() && OnlySets(old(conditions), conditions, c)
    {
      var i := 0;
      while i < |conditions|
        invariant 0 <= i <= |conditions| && conditions == old(conditions)
        invariant forall j | 0 <= j < i :: conditions[j].kind != c.kind
      {
        if conditions[i].kind == c.kind {
          OnlySetsByIndex(conditions, conditions[i := c], i, c);
          conditions := conditions[i := c];
          return;
        }
        i := i + 1;
      }
      FindNone(conditions, c.kind);
      OnlySetsByAppend(conditions, c);
      conditions := conditions + [c];
    }

    /** clearRecoveryCondition. */
    method ClearRecoveryCondition(cleared: CondType)
      requires Valid()
      modifies this`conditions
      ensures Valid() && OnlyClears(old(conditions), conditions, cleared)
    {
      var kept: seq<Condition> := [];
      for i := 0 to |conditions|
        invariant conditions == old(conditions)
        invariant Unique(kept) && OnlyClears(conditions[..i], kept, cleared)
        invariant forall j | 0 <= j < |kept| :: exists k :: 0 <= k < i && conditions[k] == kept[j]
      {
        assert conditions[..i + 1] == conditions[..i] + [conditions[i]];
        ClearStep(conditions[..i], conditions[i], kept, cleared);
        if conditions[i].kind != cleared {
          kept := kept + [conditions[i]];
        }
      }
      assert conditions[..|conditions|] == conditions;
      conditions := kept;
    }

    /** The edits of block. */
    method Block(reason: string, message: string, gen: nat)
      requires Valid()
      modifies this`conditions
      ensures Valid() && AsConds(conditions) == PatchConds(old(AsConds(conditions)), PatchBlocked)
    {
      SetRecoveryCondition(Condition(Blocked, StatusTrue, reason, message, gen));
      SetRecoveryCondition(Condition(Progressing, StatusFalse, reason, message, gen));
      ClearRecoveryCondition(Completed);
      ClearRecoveryCondition(Failed);
    }

    /** The edits of fail. */
    method Fail(reason: string, message: string, gen: nat)
      requires Valid()
      modifies this`conditions
      ensures Valid() && AsConds(conditions) == PatchConds(old(AsConds(conditions)), PatchFailed)
    {
      SetRecoveryCondition(Condition(Failed, StatusTrue, reason, message, gen));
      SetRecoveryCondition(Condition(Progressing, StatusFalse, "RecoveryFailed", message, gen));
      ClearRecoveryCondition(Blocked);
      ClearRecoveryCondition(Completed);
    }

    /** The edits of preflightRecovery. */
    method RecordPlan(p: Plan, gen: nat)
      requires Valid()
      modifies this
      ensures Valid() && forall r :: Of(r) == ApplyPatch(old(Of(r)), PatchPlan(p))
    {
      plan := Some(p);
      SetRecoveryCondition(Condition(Progressing, StatusTrue, "PreflightComplete", "", gen));
      ClearRecoveryCondition(Blocked);
      assert AsConds(conditions) == PatchConds(old(AsConds(conditions)), PatchPlan(p));
    }

    /** The edits of startRecovery. */
    method RecordStarted(gen: nat)
      requires Valid()
      modifies this
      ensures Valid() && forall r :: Of(r) == ApplyPatch(old(Of(r)), PatchStarted)
    {
      mutationStarted := true;
      SetRecoveryCondition(Condition(Progressing, StatusTrue, "RecoveryStarted", "", gen));
      ClearRecoveryCondition(Blocked);
      assert AsConds(conditions) == PatchConds(old(AsConds(conditions)), PatchStarted);
    }

    /** The edits of recordRecoveryCommitVerified. */
    method RecordCommitVerified(gen: nat)
      requires Valid()
      modifies this
      ensures Valid() && forall r :: Of(r) == ApplyPatch(old(Of(r)), PatchCommitVerified)
    {
      commitVerified := true;
      SetRecoveryCondition(Condition(Progressing, StatusTrue, "CommitVerified", "", gen));
      ClearRecoveryCondition(Blocked);
      ClearRecoveryCondition(Completed);
      ClearRecoveryCondition(Failed);
      assert AsConds(conditions) == PatchConds(old(AsConds(conditions)), PatchCommitVerified);
    }

    /** The edits of finalizeRecovery. */
    method RecordComplete(gen: nat)
      requires Valid()
      modifies this`conditions
      ensures Valid() && AsConds(conditions) == PatchConds(old(AsConds(conditions)), PatchComplete)
    {
      SetRecoveryCondition(Condition(Completed, StatusTrue, "RecoveryCompleted", "", gen));
      SetRecoveryCondition(Condition(Progressing, StatusFalse, "RecoveryCompleted", "", gen));
      ClearRecoveryCondition(Blocked);
      ClearRecoveryCondition(Failed);
    }

    /** The mutate closure of a status patch. */
    method Edit(patch: StatusPatch, reason: string, message: string, gen: nat)
      requires Valid()
      modifies this
      ensures Valid() && forall r :: Of(r) == ApplyPatch(old(Of(r)), patch)
    {
      match patch
      case PatchBlocked => Block(reason, message, gen);
      case PatchFailed => Fail(reason, message, gen);
      case PatchPlan(p) => RecordPlan(p, gen);
      case PatchStarted => RecordStarted(gen);
      case PatchCommitVerified => RecordCommitVerified(gen);
      case PatchComplete => RecordComplete(gen);
    }
  }

  /** The middle of patchRecoveryStatus: load the status of the record, mutate it, put it back. */
  method Mutated(r: Recovery, patch: StatusPatch) returns (mutated: Recovery)
    ensures mutated == ApplyPatch(r, patch)
  {
    var reason: string, message: string, gen: nat := *, *, *;
    var status := new Status.Load(r);
    status.Edit(patch, reason, message, gen);
    mutated := status.Of(r);
  }
}
