/**
 The stale-term boundary at one member: which authenticated GROUP_MERGE frames replace the
 committed group, term and membership.
 */
module MergeReceiver {
  import opened Types
  import opened MemberRecords

  datatype Payload = Payload(winning: GroupId, losing: GroupId, term: nat, effectiveMaxPeers: int, members: seq<Member>)

  datatype Disposition = Applied | Duplicate | Stale

  datatype Committed = Committed(group: GroupId, term: nat, members: seq<Member>, lastApplied: Option<Payload>)

  function Receive(c: Committed, p: Payload): (Disposition, Committed) {
    if p.term < c.term then (Stale, c)
    else if p.term == c.term then (if c.lastApplied == Some(p) then Duplicate else Stale, c)
    else (Applied, Committed(p.winning, p.term, p.members, Some(p)))
  }

  // A frame is applied exactly when its term is higher, and then replaces group, term and
  // membership together; the frame applied last is a duplicate, any other is stale, and
  // neither changes anything.
  lemma ReceiveDecided(c: Committed, p: Payload)
    ensures var (d, after) := Receive(c, p);
            && (d == Applied <==> p.term > c.term)
            && (d == Duplicate <==> p.term == c.term && c.lastApplied == Some(p))
            && (d == Stale <==> p.term < c.term || (p.term == c.term && c.lastApplied != Some(p)))
            && after == (if p.term > c.term then Committed(p.winning, p.term, p.members, Some(p)) else c)
  {
  }

  class GroupMergeReceiver {
    var group: GroupId
    var term: nat
    var members: seq<Member>
    var lastApplied: Option<Payload>

    function State(): Committed
      reads this
    {
      Committed(group, term, members, lastApplied)
    }

    constructor (group: GroupId, term: nat, members: seq<Member>)
      ensures State() == Committed(group, term, members, None)
    {
      this.group, this.term, this.members, lastApplied := group, term, members, None;
    }

    // Field by field, members in order.
    method MatchesLastApplied(p: Payload) returns (same: bool)
      ensures same == (lastApplied == Some(p))
    {
      if lastApplied.None? { return false; }
      var applied := lastApplied.value;
      if applied.winning != p.winning || applied.losing != p.losing || applied.term != p.term
         || applied.effectiveMaxPeers != p.effectiveMaxPeers || |applied.members| != |p.members| {
        return false;
      }
      for i := 0 to |applied.members|
        invariant applied.members[..i] == p.members[..i]
      {
        if applied.members[i] != p.members[i] { return false; }
      }
      assert applied.members[..|applied.members|] == applied.members && p.members[..|p.members|] == p.members;
      same := true;
    }

    method ReceivePayload(p: Payload) returns (d: Disposition)
      modifies this
      ensures (d, State()) == Receive(old(State()), p)
    {
      if p.term < term { return Stale; }
      if p.term == term {
        var same := MatchesLastApplied(p);
        return if same then Duplicate else Stale;
      }
      group, term, members, lastApplied := p.winning, p.term, p.members, Some(p);
      d := Applied;
    }
  }

  // ---------- any sequence of payloads ----------

  function ReceiveAll(c: Committed, payloads: seq<Payload>): Committed {
    if payloads == [] then c else Receive(ReceiveAll(c, payloads[..|payloads| - 1]), payloads[|payloads| - 1]).1
  }

  function Adopted(p: Payload): Committed { Committed(p.winning, p.term, p.members, Some(p)) }

  // `after` is the initial state, or a received payload of a higher term, and no received
  // payload has a higher one.
  ghost predicate HighestOf(c: Committed, payloads: seq<Payload>, after: Committed) {
    && (forall p :: p in payloads ==> p.term <= after.term)
    && (after == c || exists p :: p in payloads && p.term > c.term && after == Adopted(p))
  }

  // The committed state is always that of the highest term received, or the initial one.
  lemma {:induction false} CommittedIsHighest(c: Committed, payloads: seq<Payload>)
    ensures HighestOf(c, payloads, ReceiveAll(c, payloads))
  {
    if payloads != [] {
      var before, last := payloads[..|payloads| - 1], payloads[|payloads| - 1];
      CommittedIsHighest(c, before);
      var mid := ReceiveAll(c, before);
      assert forall p :: p in payloads ==> p in before || p == last;
      if last.term > mid.term {
        assert ReceiveAll(c, payloads) == Adopted(last);
      } else if mid != c {
        var p :| p in before && p.term > c.term && mid == Adopted(p);
        assert p in payloads;
      }
    }
  }

  // Members that receive the same payloads, in any orders and multiplicities, commit the
  // same view, provided that no two of those payloads share a term.
  lemma SamePayloadsSameView(c: Committed, a: seq<Payload>, b: seq<Payload>)
    requires forall p :: p in a <==> p in b
    requires forall p, q :: p in a && q in a && p.term == q.term ==> p == q
    ensures ReceiveAll(c, a) == ReceiveAll(c, b)
  {
    CommittedIsHighest(c, a);
    CommittedIsHighest(c, b);
    HighestIsUnique(c, a, b, ReceiveAll(c, a), ReceiveAll(c, b));
  }

  lemma HighestIsUnique(c: Committed, a: seq<Payload>, b: seq<Payload>, x: Committed, y: Committed)
    requires forall p :: p in a <==> p in b
    requires forall p, q :: p in a && q in a && p.term == q.term ==> p == q
    requires HighestOf(c, a, x) && HighestOf(c, b, y)
    ensures x == y
  {
    if x != c && y != c {
      var p :| p in a && p.term > c.term && x == Adopted(p);
      var q :| q in b && q.term > c.term && y == Adopted(q);
      assert p in b && q in a;
    }
  }
}
