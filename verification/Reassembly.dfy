/**
 Reassembly of chunked operations on one hop. One definition serves the reassemblers of
 checkpoints (no limits) and of routed reliable operations (bounded messages and bytes).
 */
module Reassembly {
  import opened Types
  import opened Chunks

  const INACTIVITY_MS: int := 10000

  datatype Limits = Unlimited | AtMost(messages: nat, bytes: nat)

  // The runtime's admission policy for routed reliable hops.
  const HOP_LIMITS := AtMost(64, 1048576)

  // An operation of which some chunk is missing.
  datatype Partial<+M> = Partial(meta: M, total: nat, pieces: seq<Option<seq<Byte>>>, updated: int)

  datatype Whole<+M> = Whole(meta: M, bytes: seq<Byte>)

  // What `bufferedBytes` counts: the announced lengths of all incomplete operations.
  ghost function Total<M>(table: map<nat, Partial<M>>): nat {
    if table == map[] then 0
    else
      var id :| id in table;
      table[id].total + Total(table - {id})
  }

  lemma TotalWithout<M>(table: map<nat, Partial<M>>, id: nat)
    requires id in table
    ensures Total(table) == table[id].total + Total(table - {id})
    decreases |table|
  {
    var k :| k in table && Total(table) == table[k].total + Total(table - {k});
    if k != id {
      TotalWithout(table - {k}, id);
      TotalWithout(table - {id}, k);
      assert table - {k} - {id} == table - {id} - {k};
    }
  }

  function Live<M>(table: map<nat, Partial<M>>, now: int): map<nat, Partial<M>> {
    map id | id in table && !(table[id].updated < now - INACTIVITY_MS) :: table[id]
  }

  predicate Complete(pieces: seq<Option<seq<Byte>>>) {
    forall i :: 0 <= i < |pieces| ==> pieces[i].Some?
  }

  function Values(pieces: seq<Option<seq<Byte>>>): (values: seq<seq<Byte>>)
    requires Complete(pieces)
    ensures |values| == |pieces| && forall i :: 0 <= i < |pieces| ==> values[i] == pieces[i].value
  {
    seq(|pieces|, i requires 0 <= i < |pieces| => pieces[i].value)
  }

  function Fresh<M>(c: Chunk<M>, now: int): Partial<M>
    requires 0 <= c.total && 0 <= c.count
  {
    Partial(c.meta, c.total, seq(c.count, i => None), now)
  }

  predicate SameShape<M(==)>(p: Partial<M>, c: Chunk<M>) {
    c.meta == p.meta && c.total == p.total && c.count == |p.pieces|
  }

  ghost predicate Admits<M>(limits: Limits, live: map<nat, Partial<M>>, total: int) {
    limits.AtMost? ==> |live| < limits.messages && Total(live) + total <= limits.bytes
  }

  // The partial operation that a chunk is added to.
  ghost function Target<M>(limits: Limits, live: map<nat, Partial<M>>, id: nat, c: Chunk<M>, now: int)
    : (r: Result<Partial<M>>)
    requires 0 <= c.total && 0 <= c.count
    ensures r.Ok? ==> |r.value.pieces| == c.count && r.value.meta == c.meta && r.value.total == c.total
  {
    if id !in live then
      if Admits(limits, live, c.total) then Ok(Fresh(c, now)) else Err(ResourceExhausted)
    else if !SameShape(live[id], c) then Err(MessageIdCollision)
    else Ok(live[id])
  }

  predicate Conflicts<M>(p: Partial<M>, c: Chunk<M>)
    requires 0 <= c.index < |p.pieces|
  {
    p.pieces[c.index].Some? && p.pieces[c.index].value != c.bytes
  }

  function WithPiece<M>(p: Partial<M>, c: Chunk<M>, now: int): Partial<M>
    requires 0 <= c.index < |p.pieces|
  {
    p.(pieces := p.pieces[c.index := Some(c.bytes)], updated := now)
  }

  // What an acceptable chunk does to the table of live operations.
  ghost function ReceiveLive<M>(limits: Limits, live: map<nat, Partial<M>>, id: nat, c: Chunk<M>, now: int)
    : (Result<Option<Whole<M>>>, map<nat, Partial<M>>)
    requires 0 <= c.total && 0 <= c.index < c.count
  {
    match Target(limits, live, id, c, now)
    case Err(e) => (Err(e), live)
    case Ok(p) =>
      if Conflicts(p, c) then (Err(MessageIdCollision), live)
      else
        var grown := WithPiece(p, c, now);
        if Complete(grown.pieces) then (Ok(Some(Whole(p.meta, Concat(Values(grown.pieces))))), live - {id})
        else (Ok(None), live[id := grown])
  }

  // One chunk arrives under the hop's MessageId: a failure, nothing yet, or the whole
  // operation, and the table afterwards.
  ghost function Receive<M>(rule: Rule, limits: Limits, table: map<nat, Partial<M>>, id: nat, c: Chunk<M>, now: int)
    : (Result<Option<Whole<M>>>, map<nat, Partial<M>>)
    requires rule.Sound()
  {
    if !Accepted(rule, c) then (Err(ProtocolMismatch), table)
    else ReceiveLive(limits, Live(table, now), id, c, now)
  }

  // ---------- the invariant of the table ----------

  // The chunk that piece i of a partial operation came in.
  function StoredChunk<M>(rule: Rule, p: Partial<M>, i: nat): Chunk<M>
    requires i < |p.pieces| && p.pieces[i].Some?
  {
    Chunk(p.meta, p.total, i, |p.pieces|, i * rule.unit, p.pieces[i].value)
  }

  ghost predicate WellCut<M>(rule: Rule, p: Partial<M>)
    requires rule.Sound()
  {
    && p.total <= rule.limit
    && |p.pieces| == CountFor(rule, p.total)
    && forall i: nat :: i < |p.pieces| && p.pieces[i].Some? ==> Accepted(rule, StoredChunk(rule, p, i))
  }

  ghost predicate Within<M>(limits: Limits, table: map<nat, Partial<M>>) {
    limits.AtMost? ==> |table| <= limits.messages && Total(table) <= limits.bytes
  }

  ghost predicate TableInv<M>(rule: Rule, limits: Limits, table: map<nat, Partial<M>>)
    requires rule.Sound()
  {
    && Within(limits, table)
    && forall id :: id in table ==> WellCut(rule, table[id]) && !Complete(table[id].pieces)
  }

  lemma {:induction false} SmallerSize<M>(small: map<nat, Partial<M>>, big: map<nat, Partial<M>>)
    requires forall id :: id in small ==> id in big && small[id] == big[id]
    ensures |small| <= |big| && Total(small) <= Total(big)
    decreases |big|
  {
    if gone :| gone in big && gone !in small {
      TotalWithout(big, gone);
      SmallerSize(small, big - {gone});
    } else {
      assert small == big;
    }
  }

  lemma LiveKeeps<M>(rule: Rule, limits: Limits, table: map<nat, Partial<M>>, now: int)
    requires rule.Sound() && TableInv(rule, limits, table)
    ensures TableInv(rule, limits, Live(table, now))
  {
    SmallerSize(Live(table, now), table);
  }

  lemma TotalUpdated<M>(table: map<nat, Partial<M>>, id: nat, p: Partial<M>)
    ensures id in table ==> |table[id := p]| == |table|
    ensures id !in table ==> |table[id := p]| == |table| + 1
    ensures Total(table[id := p]) == Total(table) + p.total - (if id in table then table[id].total else 0)
  {
    TotalWithout(table[id := p], id);
    assert table[id := p] - {id} == table - {id};
    if id in table { TotalWithout(table, id); } else { assert table - {id} == table; }
  }

  lemma TargetWellCut<M>(rule: Rule, limits: Limits, live: map<nat, Partial<M>>, id: nat, c: Chunk<M>, now: int)
    requires rule.Sound() && TableInv(rule, limits, live) && Accepted(rule, c)
    requires Target(limits, live, id, c, now).Ok?
    ensures var p := Target(limits, live, id, c, now).value;
            WellCut(rule, p) && SameShape(p, c) && c.index < |p.pieces| && WellCut(rule, WithPiece(p, c, now))
  {
    var p := Target(limits, live, id, c, now).value;
    assert StoredChunk(rule, WithPiece(p, c, now), c.index) == c;
    forall i: nat | i < |p.pieces| && WithPiece(p, c, now).pieces[i].Some?
      ensures Accepted(rule, StoredChunk(rule, WithPiece(p, c, now), i))
    {
      if i != c.index {
        assert StoredChunk(rule, WithPiece(p, c, now), i) == StoredChunk(rule, p, i);
      }
    }
  }

  lemma StoringStaysWithin<M>(limits: Limits, live: map<nat, Partial<M>>, id: nat, c: Chunk<M>, now: int, grown: Partial<M>)
    requires Within(limits, live) && 0 <= c.total && 0 <= c.count
    requires Target(limits, live, id, c, now).Ok? && grown.total == c.total
    ensures Within(limits, live[id := grown])
  {
    TotalUpdated(live, id, grown);
  }

  lemma StoringKeeps<M>(rule: Rule, limits: Limits, live: map<nat, Partial<M>>, id: nat, c: Chunk<M>, now: int)
    requires rule.Sound() && TableInv(rule, limits, live) && Accepted(rule, c)
    requires Target(limits, live, id, c, now).Ok?
    ensures var grown := WithPiece(Target(limits, live, id, c, now).value, c, now);
            !Complete(grown.pieces) ==> TableInv(rule, limits, live[id := grown])
  {
    var grown := WithPiece(Target(limits, live, id, c, now).value, c, now);
    TargetWellCut(rule, limits, live, id, c, now);
    StoringStaysWithin(limits, live, id, c, now, grown);
  }

  lemma RemovingKeeps<M>(rule: Rule, limits: Limits, live: map<nat, Partial<M>>, id: nat)
    requires rule.Sound() && TableInv(rule, limits, live)
    ensures TableInv(rule, limits, live - {id})
  {
    SmallerSize(live - {id}, live);
  }

  // Every arrival keeps the table sound and inside its limits.
  lemma ReceiveKeeps<M>(rule: Rule, limits: Limits, table: map<nat, Partial<M>>, id: nat, c: Chunk<M>, now: int)
    requires rule.Sound() && TableInv(rule, limits, table)
    ensures TableInv(rule, limits, Receive(rule, limits, table, id, c, now).1)
  {
    if Accepted(rule, c) {
      var live := Live(table, now);
      LiveKeeps(rule, limits, table, now);
      if Target(limits, live, id, c, now).Ok? {
        StoringKeeps(rule, limits, live, id, c, now);
        RemovingKeeps(rule, limits, live, id);
      }
    }
  }

  // ---------- what an arrival decides ----------

  // An operation that has not been idle for ten seconds.
  predicate Recent<M>(table: map<nat, Partial<M>>, id: nat, now: int) { id in table && table[id].updated >= now - 10_000 }

  // A chunk that contradicts what is stored of its operation.
  predicate Contradicts<M(==)>(p: Partial<M>, c: Chunk<M>)
    requires 0 <= c.index < c.count
  {
    || c.meta != p.meta || c.total != p.total || c.count != |p.pieces|
    || (p.pieces[c.index].Some? && p.pieces[c.index].value != c.bytes)
  }

  // The idle operations are forgotten, and of the others only the chunk's own can change.
  ghost predicate OnlyTouches<M>(table: map<nat, Partial<M>>, after: map<nat, Partial<M>>, id: nat, now: int) {
    forall k :: k != id ==> (k in after <==> Recent(table, k, now)) && (k in after ==> after[k] == table[k])
  }

  // What is refused: a malformed chunk, a new operation beyond the limits, and a chunk that
  // contradicts its operation; nothing of it is stored.
  lemma RefusalDecided<M>(rule: Rule, limits: Limits, table: map<nat, Partial<M>>, id: nat, c: Chunk<M>, now: int)
    requires rule.Sound()
    ensures var (r, after) := Receive(rule, limits, table, id, c, now);
            var (known, live) := (Recent(table, id, now), map k | k in table && Recent(table, k, now) :: table[k]);
            && (r == Err(ProtocolMismatch) <==> !Accepted(rule, c))
            && (!Accepted(rule, c) ==> after == table)
            && (Accepted(rule, c) ==>
                  && (r == Err(ResourceExhausted) <==>
                        !known && limits.AtMost? && (|live| >= limits.messages || Total(live) + c.total > limits.bytes))
                  && (r == Err(MessageIdCollision) <==> known && Contradicts(table[id], c))
                  && OnlyTouches(table, after, id, now)
                  && (r.Err? ==> after == live))
  {
    assert Live(table, now) == map k | k in table && Recent(table, k, now) :: table[k];
  }

  // What is taken is stored under its index and counts as activity; the operation is given
  // out, and forgotten, with the last of its pieces.
  lemma AcceptanceDecided<M>(rule: Rule, limits: Limits, table: map<nat, Partial<M>>, id: nat, c: Chunk<M>, now: int)
    requires rule.Sound() && Receive(rule, limits, table, id, c, now).0.Ok?
    ensures var (r, after) := Receive(rule, limits, table, id, c, now);
            var pieces := if Recent(table, id, now) then table[id].pieces else seq(c.count, i => None);
            && Accepted(rule, c) && |pieces| == c.count
            && (r.value.Some? <==> forall i :: 0 <= i < c.count && i != c.index ==> pieces[i].Some?)
            && (r.value.Some? ==> id !in after && r.value.value.meta == c.meta)
            && (r.value.None? ==> id in after && after[id] == Partial(c.meta, c.total, pieces[c.index := Some(c.bytes)], now))
  {
    var live := Live(table, now);
    assert id in live <==> Recent(table, id, now);
    var p := Target(limits, live, id, c, now).value;
    OthersComplete(p.pieces, c.index, c.bytes);
  }

  lemma OthersComplete(pieces: seq<Option<seq<Byte>>>, k: nat, bytes: seq<Byte>)
    requires k < |pieces|
    ensures Complete(pieces[k := Some(bytes)]) <==> forall i :: 0 <= i < |pieces| && i != k ==> pieces[i].Some?
  {
    var after := pieces[k := Some(bytes)];
    assert forall i :: 0 <= i < |pieces| && i != k ==> after[i] == pieces[i];
    if Complete(after) {
      forall i | 0 <= i < |pieces| && i != k ensures pieces[i].Some? { assert after[i].Some?; }
    }
  }

  // ---------- joining the pieces ----------

  lemma {:induction false} ConcatLength<M>(rule: Rule, p: Partial<M>, n: nat)
    requires rule.Sound() && WellCut(rule, p) && Complete(p.pieces) && 0 < n <= |p.pieces|
    ensures |Concat(Values(p.pieces)[..n])| == EndOf(rule, p.total, n - 1)
    ensures Concat(Values(p.pieces)[..n]) == Concat(Values(p.pieces)[..n - 1]) + p.pieces[n - 1].value
    ensures |Concat(Values(p.pieces)[..n - 1])| == (n - 1) * rule.unit
  {
    var last := n - 1;
    CountBounds(rule, p.total, last);
    assert Accepted(rule, StoredChunk(rule, p, last));
    assert (last + 1) * rule.unit == last * rule.unit + rule.unit;
    assert Values(p.pieces)[..n][..last] == Values(p.pieces)[..last];
    if last > 0 {
      ConcatLength(rule, p, last);
      CountBounds(rule, p.total, last - 1);
    }
  }

  lemma {:induction false} ConcatCuts<M>(rule: Rule, p: Partial<M>, n: nat, i: nat)
    requires rule.Sound() && WellCut(rule, p) && Complete(p.pieces) && i < n <= |p.pieces|
    ensures 0 <= i * rule.unit <= EndOf(rule, p.total, i) <= |Concat(Values(p.pieces)[..n])|
    ensures Concat(Values(p.pieces)[..n])[i * rule.unit..EndOf(rule, p.total, i)] == p.pieces[i].value
  {
    CountBounds(rule, p.total, i);
    ConcatLength(rule, p, n);
    if i < n - 1 {
      ConcatCuts(rule, p, n - 1, i);
    }
  }

  // The result is as long as announced, and cutting it again gives exactly the chunks
  // that were stored.
  lemma JoinedCuts<M>(rule: Rule, p: Partial<M>)
    requires rule.Sound() && WellCut(rule, p) && Complete(p.pieces)
    ensures var bytes := Concat(Values(p.pieces));
            && |bytes| == p.total
            && forall i: nat :: i < |p.pieces| ==> ChunkAt(rule, p.meta, bytes, i) == StoredChunk(rule, p, i)
  {
    CountPositive(rule, p.total);
    ConcatLength(rule, p, |p.pieces|);
    CountBounds(rule, p.total, |p.pieces| - 1);
    assert Values(p.pieces)[..|p.pieces|] == Values(p.pieces);
    var bytes := Concat(Values(p.pieces));
    forall i: nat | i < |p.pieces| ensures ChunkAt(rule, p.meta, bytes, i) == StoredChunk(rule, p, i) {
      ConcatCuts(rule, p, |p.pieces|, i);
    }
  }
}
