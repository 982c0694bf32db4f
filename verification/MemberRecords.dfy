/**
 Committed member records: collecting them from several snapshots keeps every peer once,
 with the smallest capacity any record gives it.
 */
module MemberRecords {
  import opened Types

  datatype Member = Member(peer: PeerId, maxPeers: int)

  type Records = map<PeerId, int>

  // One record put into the table: a peer already there keeps the smaller capacity.
  function Put(records: Records, m: Member): Records {
    records[m.peer := if m.peer in records then Min(records[m.peer], m.maxPeers) else m.maxPeers]
  }

  function Collect(members: seq<Member>): Records {
    if members == [] then map[] else Put(Collect(members[..|members| - 1]), members[|members| - 1])
  }

  // The loop of the source.
  method CollectRecords(members: seq<Member>) returns (records: Records)
    ensures records == Collect(members)
  {
    records := map[];
    for i := 0 to |members|
      invariant records == Collect(members[..i])
    {
      var m := members[i];
      assert members[..i + 1][..i] == members[..i];
      if m.peer in records {
        if m.maxPeers < records[m.peer] { records := records[m.peer := m.maxPeers]; }
      } else {
        records := records[m.peer := m.maxPeers];
      }
      assert records == Collect(members[..i + 1]);
    }
    assert members[..|members|] == members;
  }

  // What the table means: exactly the mentioned peers, each with the least capacity
  // mentioned for it.
  ghost predicate Least(members: seq<Member>, records: Records) {
    && (forall m :: m in members ==> m.peer in records && records[m.peer] <= m.maxPeers)
    && (forall p :: p in records ==> Member(p, records[p]) in members)
  }

  lemma {:induction false} CollectIsLeast(members: seq<Member>)
    ensures Least(members, Collect(members))
  {
    if members != [] {
      var before, m := members[..|members| - 1], members[|members| - 1];
      CollectIsLeast(before);
      assert members == before + [m];
      var records := Collect(members);
      forall p | p in records ensures Member(p, records[p]) in members {
        if p != m.peer || records[p] != m.maxPeers { assert Member(p, Collect(before)[p]) in before; }
      }
    }
  }

  // Least tables of lists that mention the same records are equal, so the order and the
  // number of mentions do not matter.
  lemma LeastIsUnique(a: seq<Member>, b: seq<Member>, ra: Records, rb: Records)
    requires Least(a, ra) && Least(b, rb) && forall m :: m in a <==> m in b
    ensures ra == rb
  {
    forall p | p in ra ensures p in rb && rb[p] <= ra[p] { assert Member(p, ra[p]) in b; }
    forall p | p in rb ensures p in ra && ra[p] <= rb[p] { assert Member(p, rb[p]) in a; }
  }

  lemma CollectSame(a: seq<Member>, b: seq<Member>)
    requires forall m :: m in a <==> m in b
    ensures Collect(a) == Collect(b)
  {
    CollectIsLeast(a);
    CollectIsLeast(b);
    LeastIsUnique(a, b, Collect(a), Collect(b));
  }

  // ---------- the least capacity of a table ----------

  ghost predicate IsCapacity(records: Records, c: int) {
    (exists p :: p in records && records[p] == c) && forall p :: p in records ==> c <= records[p]
  }

  ghost function Capacity(records: Records): (c: int)
    requires records != map[]
    ensures IsCapacity(records, c)
    decreases |records|
  {
    var p :| p in records;
    var rest := records - {p};
    if rest == map[] then
      assert forall q :: q in records ==> q == p || q in rest;
      records[p]
    else
      assert forall q :: q in records ==> q == p || (q in rest && rest[q] == records[q]);
      Min(records[p], Capacity(rest))
  }

  lemma CapacityIsUnique(records: Records, c: int, d: int)
    requires IsCapacity(records, c) && IsCapacity(records, d)
    ensures c == d
  {
  }

  // The source's reduction over the values.
  method LeastCapacity(records: Records) returns (c: int)
    requires records != map[]
    ensures c == Capacity(records)
  {
    var first :| first in records;
    c := records[first];
    var rest := records.Keys - {first};
    while rest != {}
      invariant rest <= records.Keys
      invariant exists p :: p in records && records[p] == c
      invariant forall p :: p in records && p !in rest ==> c <= records[p]
      decreases |rest|
    {
      var p :| p in rest;
      if records[p] < c { c := records[p]; }
      rest := rest - {p};
    }
    CapacityIsUnique(records, c, Capacity(records));
  }

  // ---------- the sorted list of a table ----------

  predicate StrictlySorted(members: seq<Member>) {
    forall i, j :: 0 <= i < j < |members| ==> members[i].peer < members[j].peer
  }

  ghost predicate Lists(members: seq<Member>, records: Records) {
    && StrictlySorted(members)
    && (forall m :: m in members ==> m.peer in records && records[m.peer] == m.maxPeers)
    && (forall p :: p in records ==> Member(p, records[p]) in members)
  }

  ghost function LeastPeer(peers: set<PeerId>): (least: PeerId)
    requires peers != {}
    ensures least in peers && forall p :: p in peers ==> least <= p
    decreases |peers|
  {
    var p :| p in peers;
    var rest := peers - {p};
    if rest == {} then
      assert peers == {p};
      p
    else
      assert peers == rest + {p};
      Min(p, LeastPeer(rest))
  }

  ghost function SortedMembers(records: Records): (members: seq<Member>)
    ensures |members| == |records|
    decreases |records|
  {
    if records == map[] then []
    else
      var p := LeastPeer(records.Keys);
      [Member(p, records[p])] + SortedMembers(records - {p})
  }

  lemma {:induction false} SortedLists(records: Records)
    ensures Lists(SortedMembers(records), records)
    decreases |records|
  {
    if records != map[] {
      var p := LeastPeer(records.Keys);
      SortedLists(records - {p});
      ConsLists(p, records, SortedMembers(records - {p}));
    }
  }

  lemma ConsLists(p: PeerId, records: Records, rest: seq<Member>)
    requires p in records && (forall q :: q in records ==> p <= q) && Lists(rest, records - {p})
    ensures Lists([Member(p, records[p])] + rest, records)
  {
    var members := [Member(p, records[p])] + rest;
    forall j | 0 < j < |members| ensures p < members[j].peer {
      assert members[j] in rest;
    }
    forall q | q in records ensures Member(q, records[q]) in members {
      if q != p { assert Member(q, (records - {p})[q]) in rest; }
    }
  }

  // A table has one sorted list.
  lemma {:induction false} SortedIsUnique(a: seq<Member>, b: seq<Member>, records: Records)
    requires Lists(a, records) && Lists(b, records)
    ensures a == b
    decreases |a|
  {
    if a == [] {
      assert forall m :: m in b ==> m.peer in records;
      assert multiset(b) == multiset{};
      assert |b| == |multiset(b)|;
    } else {
      assert a[0] in a;
      assert Member(a[0].peer, records[a[0].peer]) in b;
      assert b[0] in b && Member(b[0].peer, records[b[0].peer]) in a;
      assert a[0].peer == b[0].peer;
      var rest := records - {a[0].peer};
      TailLists(a, records);
      TailLists(b, records);
      SortedIsUnique(a[1..], b[1..], rest);
    }
  }

  lemma TailLists(a: seq<Member>, records: Records)
    requires Lists(a, records) && a != []
    ensures Lists(a[1..], records - {a[0].peer})
  {
    forall p | p in records - {a[0].peer} ensures Member(p, records[p]) in a[1..] {
      assert Member(p, records[p]) in a;
    }
  }
}
