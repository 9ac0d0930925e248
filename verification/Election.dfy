/** Winner election among the recoveries of one source
    (recoveryPrecedes and recoveryWinnerForSource of
    internal/controller/workloadidentityrecovery_target.go). */
module Election {
  import opened OwnershipTags
  import opened Resources

  /** Go's order on strings. */
  predicate StringLess(a: string, b: string) {
    if b == "" then false
    else if a == "" then true
    else if a[0] != b[0] then a[0] < b[0]
    else StringLess(a[1..], b[1..])
  }

  predicate Precedes(left: Recovery, right: Recovery) {
    if left.created < right.created then true
    else if right.created < left.created then false
    else if left.uid != right.uid then StringLess(left.uid, right.uid)
    else StringLess(left.name, right.name)
  }

  predicate Active(r: Recovery) { r.started || r.commitVerified }

  lemma {:induction false} StringLessTotal(a: string, b: string)
    ensures !StringLess(a, a)
    ensures a != b ==> StringLess(a, b) || StringLess(b, a)
    ensures !(StringLess(a, b) && StringLess(b, a))
    decreases |a| + |b|
  {
    if a != "" {
      StringLessTotal(a[1..], if b != "" then b[1..] else "");
      if b != "" && a[0] == b[0] && a[1..] == b[1..] {
        assert a == [a[0]] + a[1..] && b == [b[0]] + b[1..];
      }
    }
  }

  lemma {:induction false} StringLessTransitive(a: string, b: string, c: string)
    requires StringLess(a, b) && StringLess(b, c)
    ensures StringLess(a, c)
    decreases |a|
  {
    if a != "" && a[0] == b[0] && b[0] == c[0] {
      StringLessTransitive(a[1..], b[1..], c[1..]);
    }
  }

  /** recoveryPrecedes is a strict total order on records with distinct UIDs. */
  lemma PrecedesIsStrictTotalOrder(a: Recovery, b: Recovery, c: Recovery)
    ensures !Precedes(a, a)
    ensures !(Precedes(a, b) && Precedes(b, a))
    ensures a.uid != b.uid ==> Precedes(a, b) || Precedes(b, a)
    ensures Precedes(a, b) && Precedes(b, c) ==> Precedes(a, c)
  {
    StringLessTotal(a.uid, b.uid);
    StringLessTotal(a.name, b.name);
    if a.created == b.created == c.created {
      if StringLess(a.uid, b.uid) && StringLess(b.uid, c.uid) {
        StringLessTransitive(a.uid, b.uid, c.uid);
        StringLessTotal(a.uid, c.uid);
      }
      if StringLess(a.name, b.name) && StringLess(b.name, c.name) {
        StringLessTransitive(a.name, b.name, c.name);
      }
      StringLessTotal(b.uid, c.uid);
    }
  }

  /** w is the record the election settles on: the least started one if any has started,
      else the least one. */
  predicate IsElected(records: set<Recovery>, source: Uid, w: Recovery) {
    w in records && w.source == source &&
    (forall c | c in records && c.source == source ::
       (Active(c) ==> Active(w) && !Precedes(c, w)) && (!Active(w) ==> !Precedes(c, w)))
  }

  /** Go's order is the order at the first difference. */
  lemma {:induction false} StringLessIs(a: string, b: string)
    ensures StringLess(a, b) <==>
              exists k :: 0 <= k <= |a| && k < |b| && a[..k] == b[..k] && (k < |a| ==> a[k] < b[k])
    decreases |a|
  {
    if b != "" && a == "" {
      assert a[..0] == b[..0];
    } else if b != "" && a != "" {
      StringLessIs(a[1..], b[1..]);
      if a[0] != b[0] {
        assert a[..0] == b[..0];
        assert forall k | 0 < k <= |a| && k < |b| :: a[..k] == b[..k] ==> a[..k][0] == b[..k][0];
      } else {
        if StringLess(a[1..], b[1..]) {
          var k :| 0 <= k <= |a[1..]| && k < |b[1..]| && a[1..][..k] == b[1..][..k] && (k < |a[1..]| ==> a[1..][k] < b[1..][k]);
          assert a[..k + 1] == [a[0]] + a[1..][..k] && b[..k + 1] == [b[0]] + b[1..][..k];
        }
        if k :| 0 <= k <= |a| && k < |b| && a[..k] == b[..k] && (k < |a| ==> a[k] < b[k]) {
          assert k > 0;
          assert a[1..][..k - 1] == a[..k][1..] && b[1..][..k - 1] == b[..k][1..];
        }
      }
    }
  }

  /** Of the records of a source, w was created first, and has the first UID of those created with it. */
  ghost predicate Earliest(records: set<Recovery>, source: Uid, w: Recovery) {
    forall c | c in records && c.source == source ::
      w.created <= c.created && (c.created == w.created ==> !StringLess(c.uid, w.uid))
  }

  ghost function Begun(records: set<Recovery>): set<Recovery> {
    set c | c in records && (c.started || c.commitVerified)
  }

  /** Which record wins: the earliest of those that have started or committed, if there is one, and the
      earliest of all otherwise. */
  ghost predicate Wins(records: set<Recovery>, source: Uid, w: Recovery) {
    w in records && w.source == source &&
    ((exists c :: c in Begun(records) && c.source == source) ==> w in Begun(records) && Earliest(Begun(records), source, w)) &&
    ((forall c | c in Begun(records) :: c.source != source) ==> Earliest(records, source, w))
  }

  ghost predicate DistinctUids(records: set<Recovery>) {
    forall a, b | a in records && b in records && a.uid == b.uid :: a == b
  }

  /** The election settles on the record that wins by creation time and UID. */
  lemma ElectedIsEarliest(records: set<Recovery>, source: Uid, w: Recovery)
    ensures IsElected(records, source, w) ==> Wins(records, source, w)
    ensures DistinctUids(records) && Wins(records, source, w) ==> IsElected(records, source, w)
  {
    forall c: Recovery
      ensures !Precedes(c, w) ==> w.created <= c.created && (c.created == w.created ==> !StringLess(c.uid, w.uid))
      ensures w.created <= c.created && (c.created == w.created ==> !StringLess(c.uid, w.uid)) && (c.uid == w.uid ==> c == w) ==>
                !Precedes(c, w)
    {
      StringLessTotal(c.uid, w.uid);
      StringLessTotal(w.name, w.name);
    }
  }

  lemma ElectedIsUnique(records: set<Recovery>, source: Uid, v: Recovery, w: Recovery)
    requires DistinctUids(records)
    requires IsElected(records, source, v) && IsElected(records, source, w)
    ensures v == w
  {
    PrecedesIsStrictTotalOrder(v, w, v);
  }

  ghost function Records(list: seq<Recovery>): set<Recovery> { set r | r in list }

  /** The loop. It answers None when r itself is elected (or no record has its source) and the
      elected record otherwise: the earliest of those begun, if there is one, else the earliest.
      The contract depends on the list only through its members, so its order does not matter. */
  method RecoveryWinnerForSource(list: seq<Recovery>, r: Recovery) returns (result: Option<Recovery>)
    ensures result.Some? ==> IsElected(Records(list), r.source, result.value) && result.value.uid != r.uid
    ensures result.Some? ==> Wins(Records(list), r.source, result.value)
    ensures result.None? ==>
              (forall c | c in list :: c.source != r.source) ||
              exists w :: IsElected(Records(list), r.source, w) && Wins(Records(list), r.source, w) && w.uid == r.uid
  {
    var incumbent: Option<Recovery> := None;
    var winner: Option<Recovery> := None;
    for i := 0 to |list|
      invariant winner.None? ==> forall j | 0 <= j < i :: list[j].source != r.source
      invariant winner.Some? ==> winner.value in list[..i] && winner.value.source == r.source
      invariant winner.Some? ==> forall j | 0 <= j < i && list[j].source == r.source :: !Precedes(list[j], winner.value)
      invariant incumbent.None? ==> forall j | 0 <= j < i && list[j].source == r.source :: !Active(list[j])
      invariant incumbent.Some? ==> incumbent.value in list[..i] && incumbent.value.source == r.source && Active(incumbent.value)
      invariant incumbent.Some? ==> forall j | 0 <= j < i && list[j].source == r.source && Active(list[j]) :: !Precedes(list[j], incumbent.value)
    {
      var candidate := list[i];
      if candidate.source == r.source {
        if Active(candidate) && (incumbent.None? || Precedes(candidate, incumbent.value)) {
          LeastMoves(list[..i], r.source, candidate, incumbent);
          incumbent := Some(candidate);
        }
        if winner.None? || Precedes(candidate, winner.value) {
          LeastMoves(list[..i], r.source, candidate, winner);
          winner := Some(candidate);
        }
      }
    }
    if incumbent.Some? {
      winner := incumbent;
    }
    assert winner.Some? ==> IsElected(Records(list), r.source, winner.value);
    if winner.Some? {
      ElectedIsEarliest(Records(list), r.source, winner.value);
    }
    if winner.None? || winner.value.uid == r.uid {
      return None;
    }
    return winner;
  }

  /** A candidate before the least record so far is before every earlier record. */
  lemma LeastMoves(seen: seq<Recovery>, source: Uid, candidate: Recovery, least: Option<Recovery>)
    requires least.Some? ==> Precedes(candidate, least.value)
    ensures !Precedes(candidate, candidate)
    ensures least.Some? ==> forall j | 0 <= j < |seen| && !Precedes(seen[j], least.value) :: !Precedes(seen[j], candidate)
  {
    PrecedesIsStrictTotalOrder(candidate, candidate, candidate);
    if least.Some? {
      forall j | 0 <= j < |seen| && !Precedes(seen[j], least.value)
        ensures !Precedes(seen[j], candidate)
      {
        PrecedesIsStrictTotalOrder(seen[j], candidate, least.value);
      }
    }
  }

  /** Two different records of one source in one list are never both told that they win. */
  lemma OnlyOneSeesItselfWin(list: seq<Recovery>, a: Recovery, b: Recovery, wa: Recovery, wb: Recovery)
    requires DistinctUids(Records(list)) && a in list && b in list
    requires a.source == b.source && a.uid != b.uid
    requires IsElected(Records(list), a.source, wa) && IsElected(Records(list), b.source, wb)
    ensures wa.uid != a.uid || wb.uid != b.uid
  {
    ElectedIsUnique(Records(list), a.source, wa, wb);
  }

  /** The least record exists for every list that has one of the source. */
  lemma {:induction false} SomeRecordIsElected(list: seq<Recovery>, source: Uid) returns (w: Recovery)
    requires exists c :: c in list && c.source == source
    ensures IsElected(Records(list), source, w)
  {
    if |list| == 1 {
      w := list[0];
      PrecedesIsStrictTotalOrder(w, w, w);
    } else {
      var head, tail := list[0], list[1..];
      assert list == [head] + tail;
      PrecedesIsStrictTotalOrder(head, head, head);
      if head.source != source {
        w := SomeRecordIsElected(tail, source);
      } else if forall c | c in tail :: c.source != source {
        w := head;
      } else {
        var v := SomeRecordIsElected(tail, source);
        PrecedesIsStrictTotalOrder(head, v, head);
        forall c | c in tail
          ensures Precedes(c, head) && Precedes(head, v) ==> Precedes(c, v)
        {
          PrecedesIsStrictTotalOrder(c, head, v);
        }
        assert forall c | c in list :: c == head || c in tail;
        if Active(head) && !Active(v) {
          w := head;
        } else if Active(v) && !Active(head) {
          w := v;
        } else if Precedes(head, v) {
          w := head;
        } else {
          w := v;
        }
      }
    }
  }
}
