/** Watch lookups through field indexes equal a full scan
    (recoveriesForWorkloadIdentity and workloadIdentitiesForServiceAccount). */
module Lookup {
  import opened OwnershipTags
  import opened Azure
  import opened Resources

  // ---------------------------------------------------------------- the index key

  /** NamespacedName.String. */
  function KeyString(k: Key): string { k.ns + "/" + k.name }

  predicate NoSlash(s: string) { '/' !in s }

  /** The key is injective because a namespace has no slash in it. */
  lemma KeyStringIsInjective(a: Key, b: Key)
    requires NoSlash(a.ns) && NoSlash(b.ns) && KeyString(a) == KeyString(b)
    ensures a == b
  {
    SlashPosition(a);
    SlashPosition(b);
    assert |a.ns| == |b.ns|;
    assert a.ns == KeyString(a)[..|a.ns|] == KeyString(b)[..|b.ns|] == b.ns;
    assert a.name == KeyString(a)[|a.ns| + 1..] == KeyString(b)[|b.ns| + 1..] == b.name;
  }

  lemma SlashPosition(k: Key)
    requires NoSlash(k.ns)
    ensures KeyString(k)[|k.ns|] == '/' && forall i | 0 <= i < |k.ns| :: KeyString(k)[i] != '/'
  {
    forall i | 0 <= i < |k.ns|
      ensures KeyString(k)[i] != '/'
    {
      assert KeyString(k)[i] == k.ns[i] && k.ns[i] in k.ns;
    }
  }

  /** The tags of one UAMI claim it for one logical identity at most. */
  lemma BaseOwnershipNamesOneIdentity(a: Key, b: Key, tags: Tags)
    requires NoSlash(a.ns) && NoSlash(b.ns) && BaseOwnership(a, tags) && BaseOwnership(b, tags)
    ensures a == b
  {
    BaseOwnershipIs(a, tags);
    BaseOwnershipIs(b, tags);
    KeyStringIsInjective(a, b);
  }

  /** With slashes in namespaces it would not be. */
  lemma SlashesCollide()
    ensures KeyString(Key("a/b", "c")) == KeyString(Key("a", "b/c"))
  {
    assert "a/b" + "/" + "c" == "a/b/c" == "a" + "/" + "b/c";
  }

  // ---------------------------------------------------------------- recoveries of a target

  predicate Live(r: Recovery) { !r.deleting && !IsTerminal(r) }

  /** activeRecoveryTargetIndexValues. */
  function IndexValues(r: Recovery): seq<string> { if Live(r) then [KeyString(r.key)] else [] }

  /** What the API server lists for one index value. */
  function ListIndexed(all: seq<Recovery>, value: string): seq<Recovery> {
    if all == [] then []
    else if value in IndexValues(all[0]) then [all[0]] + ListIndexed(all[1..], value)
    else ListIndexed(all[1..], value)
  }

  predicate Watches(r: Recovery, target: Key) { Live(r) && r.key == target }

  /** A recovery is requested for its own target while it is neither deleted nor at an end. */
  lemma WatchesIs(r: Recovery, target: Key)
    ensures Watches(r, target) <==>
              r.key.ns == target.ns && r.key.name == target.name && !r.deleting &&
              !(Completed in r.conds && r.conds[Completed]) && !(Failed in r.conds && r.conds[Failed])
  {
  }

  /** The full scan: the names of the live recoveries of a target, in list order. */
  function Scan(all: seq<Recovery>, target: Key): seq<string> {
    if all == [] then []
    else if Watches(all[0], target) then [all[0].name] + Scan(all[1..], target)
    else Scan(all[1..], target)
  }

  lemma {:induction false} ScanAppend(a: seq<Recovery>, b: seq<Recovery>, target: Key)
    ensures Scan(a + b, target) == Scan(a, target) + Scan(b, target)
  {
    if a == [] {
      assert a + b == b;
    } else {
      assert (a + b)[1..] == a[1..] + b;
      ScanAppend(a[1..], b, target);
    }
  }

  lemma {:induction false} IndexLosesNothing(all: seq<Recovery>, target: Key)
    ensures Scan(ListIndexed(all, KeyString(target)), target) == Scan(all, target)
  {
    if all != [] {
      IndexLosesNothing(all[1..], target);
      var rest := ListIndexed(all[1..], KeyString(target));
      assert ([all[0]] + rest)[1..] == rest;
    }
  }

  /** Where no namespace has a slash, the index alone lists exactly the live recoveries of the target, and
      the filter after it removes nothing. */
  lemma {:induction false} IndexIsExact(all: seq<Recovery>, target: Key)
    requires NoSlash(target.ns) && forall r | r in all :: NoSlash(r.key.ns)
    ensures forall r :: r in ListIndexed(all, KeyString(target)) <==> r in all && Watches(r, target)
  {
    if all != [] {
      IndexIsExact(all[1..], target);
      if KeyString(all[0].key) == KeyString(target) {
        KeyStringIsInjective(all[0].key, target);
      }
      hide KeyString;
      assert all == [all[0]] + all[1..];
    }
  }

  /** What the scan means: a name is requested exactly when a live recovery of the target bears it. */
  lemma {:induction false} ScanMeans(all: seq<Recovery>, target: Key, name: string)
    ensures name in Scan(all, target) <==> exists r :: r in all && Watches(r, target) && r.name == name
  {
    if all != [] {
      ScanMeans(all[1..], target, name);
      assert all == [all[0]] + all[1..];
      if exists r :: r in all && Watches(r, target) && r.name == name {
        var r :| r in all && Watches(r, target) && r.name == name;
        assert r == all[0] || r in all[1..];
      }
    }
  }

  /** recoveriesForWorkloadIdentity; `listed` is None when the list call fails. */
  method RecoveriesForWorkloadIdentity(ghost all: seq<Recovery>, listed: Option<seq<Recovery>>, target: Key)
    returns (requests: seq<string>)
    requires listed.Some? ==> listed.value == ListIndexed(all, KeyString(target))
    ensures requests == if listed.Some? then Scan(all, target) else []
    ensures forall name :: name in requests <==> listed.Some? && exists r :: r in all && Watches(r, target) && r.name == name
  {
    requests := [];
    if listed.None? {
      return;
    }
    var items := listed.value;
    for i := 0 to |items|
      invariant requests == Scan(items[..i], target)
    {
      var recovery := items[i];
      assert items[..i + 1] == items[..i] + [recovery];
      ScanAppend(items[..i], [recovery], target);
      if !recovery.deleting && !IsTerminal(recovery) && recovery.key.ns == target.ns && recovery.key.name == target.name {
        requests := requests + [recovery.name];
      }
    }
    assert items[..|items|] == items;
    IndexLosesNothing(all, target);
    forall name
      ensures name in requests <==> exists r :: r in all && Watches(r, target) && r.name == name
    {
      ScanMeans(all, target, name);
    }
  }

  // ---------------------------------------------------------------- identities of a ServiceAccount

  /** One of the two field indexes. */
  datatype Field = SaNameField | UidField

  function FieldValue(t: Ident, f: Field): string {
    match f case SaNameField => t.saName case UidField => t.uid
  }

  predicate InIndex(t: Ident, ns: string, f: Field, value: string) { t.key.ns == ns && FieldValue(t, f) == value }

  function ListIdentities(all: seq<Ident>, ns: string, f: Field, value: string): (r: seq<Ident>)
    ensures forall t :: t in r <==> t in all && InIndex(t, ns, f, value)
  {
    if all == [] then []
    else if InIndex(all[0], ns, f, value) then [all[0]] + ListIdentities(all[1..], ns, f, value)
    else ListIdentities(all[1..], ns, f, value)
  }

  predicate NoDuplicates(keys: seq<Key>) {
    forall i, j | 0 <= i < j < |keys| :: keys[i] != keys[j]
  }

  /** An identity that the account concerns: by its configured name or by the owner label. */
  predicate Concerns(t: Ident, ns: string, name: string, owner: Uid) {
    ns != "" && name != "" && t.key.ns == ns && (t.saName == name || (owner != "" && t.uid == owner))
  }

  /** The closure: append what one index finds and has not been seen. */
  method AppendMatches(items: seq<Ident>, seen: set<Key>, requests: seq<Key>) returns (seen': set<Key>, requests': seq<Key>)
    requires NoDuplicates(requests) && seen == set k | k in requests
    ensures NoDuplicates(requests') && seen' == set k | k in requests'
    ensures forall k :: k in requests' <==> k in requests || exists t :: t in items && t.key == k
  {
    seen', requests' := seen, requests;
    for i := 0 to |items|
      invariant NoDuplicates(requests') && seen' == set k | k in requests'
      invariant forall k :: k in requests' <==> k in requests || exists j :: 0 <= j < i && items[j].key == k
    {
      var key := items[i].key;
      if key !in seen' {
        seen' := seen' + {key};
        requests' := requests' + [key];
      }
    }
  }

  /** workloadIdentitiesForServiceAccount: without duplicates, exactly the identities the account
      concerns. The lists are None when the call fails. */
  method WorkloadIdentitiesForServiceAccount(ghost all: seq<Ident>, ns: string, name: string, owner: Uid,
                                             byName: Option<seq<Ident>>, byOwner: Option<seq<Ident>>)
    returns (requests: seq<Key>)
    requires byName.Some? ==> byName.value == ListIdentities(all, ns, SaNameField, name)
    requires byOwner.Some? ==> byOwner.value == ListIdentities(all, ns, UidField, owner)
    ensures NoDuplicates(requests)
    ensures byName.Some? && (owner == "" || byOwner.Some?) ==>
              forall k :: k in requests <==> exists t :: t in all && t.key == k && Concerns(t, ns, name, owner)
    ensures ns == "" || name == "" || byName.None? || (owner != "" && byOwner.None?) ==> requests == []
  {
    if ns == "" || name == "" {
      return [];
    }
    var seen: set<Key> := {};
    requests := [];
    if byName.None? {
      return [];
    }
    seen, requests := AppendMatches(byName.value, seen, requests);
    if owner != "" {
      if byOwner.None? {
        return [];
      }
      seen, requests := AppendMatches(byOwner.value, seen, requests);
    }
    forall k
      ensures byName.Some? && (owner == "" || byOwner.Some?) ==> (k in requests <==> exists t :: t in all && t.key == k && Concerns(t, ns, name, owner))
    {
      if t :| t in all && t.key == k && Concerns(t, ns, name, owner) {
        assert InIndex(t, ns, SaNameField, name) || InIndex(t, ns, UidField, owner);
      }
    }
  }
}
