/**
 Reconciliation of two committed views of one group: the union of their records with the
 smaller capacity on conflict, a higher term, and a refusal when the union does not fit.
 */
module SplitBrain {
  import opened Types
  import opened MemberRecords

  // Dart integers have 64 bits; incrementing the last one wraps around.
  const MAX_INT64: int := 0x7FFF_FFFF_FFFF_FFFF
  const MIN_INT64: int := -0x8000_0000_0000_0000

  type Int64 = x: int | MIN_INT64 <= x <= MAX_INT64

  function Increment(x: Int64): Int64 { if x == MAX_INT64 then MIN_INT64 else x + 1 }

  datatype Reconciliation = Reconciliation(term: Int64, members: seq<Member>, effectiveMaxPeers: int)

  ghost function Reconcile(termA: Int64, termB: Int64, a: seq<Member>, b: seq<Member>, reachable: seq<Member>)
    : Result<Reconciliation>
  {
    if termA < 0 || termB < 0 then Err(ProtocolMismatch)
    else
      var records := Collect(a + b + reachable);
      if records == map[] then Err(ProtocolMismatch)
      else
        var members, effective := SortedMembers(records), Capacity(records);
        if |members| > effective then Err(GroupFull)
        else Ok(Reconciliation(Increment(if termA > termB then termA else termB), members, effective))
  }

  // ---------- what a reconciliation means ----------

  ghost predicate Fits(records: Records) { records != map[] && |records| <= Capacity(records) }

  // The members of a successful result are the sorted union with the least capacities,
  // and they fit; it fails for a negative term or an empty union, and is full exactly
  // when the union is larger than its least capacity.
  lemma ReconcileMeaning(termA: Int64, termB: Int64, a: seq<Member>, b: seq<Member>, reachable: seq<Member>)
    ensures var r := Reconcile(termA, termB, a, b, reachable);
            var records := Collect(a + b + reachable);
            && Least(a + b + reachable, records)
            && (r.Ok? <==> termA >= 0 && termB >= 0 && Fits(records))
            && (r == Err(ProtocolMismatch) <==> termA < 0 || termB < 0 || a + b + reachable == [])
            && (r == Err(GroupFull) <==> termA >= 0 && termB >= 0 && records != map[] && !Fits(records))
            && (r.Ok? ==>
                  && Lists(r.value.members, records)
                  && |r.value.members| <= r.value.effectiveMaxPeers
                  && IsCapacity(records, r.value.effectiveMaxPeers))
  {
    CollectIsLeast(a + b + reachable);
    SortedLists(Collect(a + b + reachable));
    if a + b + reachable != [] { assert (a + b + reachable)[0] in a + b + reachable; }
  }

  // The new term exceeds both unless the larger one is the last 64-bit integer.
  lemma TermExceedsBothIff(termA: Int64, termB: Int64, a: seq<Member>, b: seq<Member>, reachable: seq<Member>)
    requires Reconcile(termA, termB, a, b, reachable).Ok?
    ensures var term := Reconcile(termA, termB, a, b, reachable).value.term;
            && (term > termA && term > termB <==> termA < MAX_INT64 && termB < MAX_INT64)
            && (termA < MAX_INT64 && termB < MAX_INT64 ==> term == (if termA > termB then termA + 1 else termB + 1))
            && (termA == MAX_INT64 || termB == MAX_INT64 ==> term == MIN_INT64)
  {
  }

  // Both sides compute the same result, whatever order they saw the records in.
  lemma ReconcileCommutes(termA: Int64, termB: Int64, a: seq<Member>, b: seq<Member>, reachable: seq<Member>,
                          other: seq<Member>)
    requires forall m :: m in reachable <==> m in other
    ensures Reconcile(termA, termB, a, b, reachable) == Reconcile(termB, termA, b, a, other)
  {
    CollectSame(a + b + reachable, b + a + other);
  }

  lemma CollectOfSorted(members: seq<Member>)
    requires StrictlySorted(members)
    ensures Lists(members, Collect(members))
  {
    CollectIsLeast(members);
    var records := Collect(members);
    forall m | m in members ensures records[m.peer] == m.maxPeers {
      assert Member(m.peer, records[m.peer]) in members;
    }
  }

  // A committed view reconciled with itself stays as it is.
  lemma ReconcileIdempotent(term: Int64, members: seq<Member>)
    requires term >= 0 && StrictlySorted(members) && Fits(Collect(members))
    ensures Reconcile(term, term, members, members, []).Ok?
    ensures Reconcile(term, term, members, members, []).value.members == members
  {
    CollectSame(members + members + [], members);
    CollectOfSorted(members);
    SortedLists(Collect(members));
    SortedIsUnique(members, SortedMembers(Collect(members)), Collect(members));
  }

  // ---------- three views ----------

  // Members only; terms grow with every reconciliation.
  ghost function Union(a: seq<Member>, b: seq<Member>): Result<seq<Member>> {
    match Reconcile(0, 0, a, b, [])
    case Ok(r) => Ok(r.members)
    case Err(e) => Err(e)
  }

  ghost function LeftFirst(a: seq<Member>, b: seq<Member>, c: seq<Member>): Result<seq<Member>> {
    match Union(a, b)
    case Ok(ab) => Union(ab, c)
    case Err(e) => Err(e)
  }

  ghost function RightFirst(a: seq<Member>, b: seq<Member>, c: seq<Member>): Result<seq<Member>> {
    match Union(b, c)
    case Ok(bc) => Union(a, bc)
    case Err(e) => Err(e)
  }

  // The result for all records at once.
  ghost function AllAtOnce(members: seq<Member>): Result<seq<Member>> {
    var records := Collect(members);
    if records == map[] then Err(ProtocolMismatch)
    else if !Fits(records) then Err(GroupFull)
    else Ok(SortedMembers(records))
  }

  lemma UnionIsAllAtOnce(a: seq<Member>, b: seq<Member>)
    ensures Union(a, b) == AllAtOnce(a + b)
  {
    assert a + b + [] == a + b;
  }

  // Records of a list in which a part was replaced by its own table.
  lemma CollectThroughSorted(a: seq<Member>, c: seq<Member>)
    ensures Collect(SortedMembers(Collect(a)) + c) == Collect(a + c)
  {
    var sorted, r := SortedMembers(Collect(a)), Collect(a + c);
    CollectIsLeast(a);
    SortedLists(Collect(a));
    CollectIsLeast(a + c);
    SortedMentionsEnough(a, c, sorted, r);
    CollectIsLeast(sorted + c);
    LeastIsUnique(sorted + c, sorted + c, Collect(sorted + c), r);
  }

  lemma SortedMentionsEnough(a: seq<Member>, c: seq<Member>, sorted: seq<Member>, r: Records)
    requires Least(a, Collect(a)) && Lists(sorted, Collect(a)) && Least(a + c, r)
    ensures Least(sorted + c, r)
  {
    forall m | m in sorted + c ensures m.peer in r && r[m.peer] <= m.maxPeers {
      if m in sorted { assert Member(m.peer, Collect(a)[m.peer]) in a; }
      assert m in a + c;
    }
    forall p | p in r ensures Member(p, r[p]) in sorted + c {
      assert Member(p, r[p]) in a + c;
      if Member(p, r[p]) in a {
        assert Collect(a)[p] <= r[p];
        assert Member(p, Collect(a)[p]) in a + c;
      }
    }
  }

  // A part of a union that fits, fits.
  lemma PartFits(part: seq<Member>, all: seq<Member>)
    requires part != [] && (forall m :: m in part ==> m in all) && Fits(Collect(all))
    ensures Fits(Collect(part))
  {
    CollectIsLeast(part);
    CollectIsLeast(all);
    var small, big := Collect(part), Collect(all);
    assert part[0] in part && part[0].peer in small;
    forall p | p in small ensures p in big && big[p] <= small[p] {
      assert Member(p, small[p]) in all;
    }
    var p :| p in small && small[p] == Capacity(small);
    assert Capacity(big) <= big[p] <= Capacity(small);
    FewerPeers(small.Keys, big.Keys);
  }

  lemma FewerPeers(small: set<PeerId>, big: set<PeerId>)
    requires small <= big
    ensures |small| <= |big|
  {
    assert big == small + (big - small);
  }

  lemma LeftIsAllAtOnce(a: seq<Member>, b: seq<Member>, c: seq<Member>)
    requires a + b != []
    ensures LeftFirst(a, b, c) == AllAtOnce(a + b + c)
  {
    UnionIsAllAtOnce(a, b);
    CollectIsLeast(a + b);
    CollectIsLeast(a + b + c);
    assert (a + b)[0] in a + b && (a + b)[0].peer in Collect(a + b);
    assert (a + b)[0] in a + b + c && (a + b)[0].peer in Collect(a + b + c);
    if Fits(Collect(a + b)) {
      var ab := SortedMembers(Collect(a + b));
      UnionIsAllAtOnce(ab, c);
      CollectThroughSorted(a + b, c);
    } else if Fits(Collect(a + b + c)) {
      PartFits(a + b, a + b + c);
    }
  }

  lemma RightIsAllAtOnce(a: seq<Member>, b: seq<Member>, c: seq<Member>)
    requires b + c != []
    ensures RightFirst(a, b, c) == AllAtOnce(a + b + c)
  {
    LeftIsAllAtOnce(b, c, a);
    CollectSame(b + c + a, a + b + c);
    if Union(b, c).Ok? { UnionCommutes(a, Union(b, c).value); }
  }

  lemma UnionCommutes(a: seq<Member>, b: seq<Member>)
    ensures Union(a, b) == Union(b, a)
  {
    CollectSame(a + b + [], b + a + []);
  }

  // Three views reconcile to the same members, or the same refusal, in either grouping,
  // unless the middle one and exactly one other are empty.
  lemma AssociativeIff(a: seq<Member>, b: seq<Member>, c: seq<Member>)
    ensures LeftFirst(a, b, c) == RightFirst(a, b, c) <==> !(b == [] && (a == []) != (c == []))
  {
    CollectIsLeast(a + b + c);
    if a + b != [] && b + c != [] {
      LeftIsAllAtOnce(a, b, c);
      RightIsAllAtOnce(a, b, c);
      assert b == [] ==> a != [] && c != [];
    } else if a + b == [] && b + c == [] {
      assert a == [] && b == [] && c == [];
    } else if a + b == [] {
      EmptyFails(a, b);
      RightIsAllAtOnce(a, b, c);
      NonEmptyDiffers(a + b + c);
    } else {
      EmptyFails(b, c);
      LeftIsAllAtOnce(a, b, c);
      NonEmptyDiffers(a + b + c);
    }
  }

  lemma EmptyFails(a: seq<Member>, b: seq<Member>)
    requires a + b == []
    ensures Union(a, b) == Err(ProtocolMismatch)
  {
    UnionIsAllAtOnce(a, b);
  }

  lemma NonEmptyDiffers(members: seq<Member>)
    requires members != []
    ensures AllAtOnce(members) != Err(ProtocolMismatch)
  {
    CollectIsLeast(members);
    assert members[0] in members && members[0].peer in Collect(members);
  }
}
