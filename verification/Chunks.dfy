/**
 Cutting a payload into chunks: COORDINATOR_CHECKPOINT chunks of 4,000 bytes and
 GROUP_RELIABLE chunks of 16,300 bytes follow one rule, with their own unit, limit and
 metadata.
 */
module Chunks {
  import opened Types

  // What tells the two kinds of chunk apart.
  datatype Rule = Rule(unit: nat, limit: nat)
  {
    predicate Sound() { 0 < unit }
  }

  const CHECKPOINT := Rule(4000, MAX_CHECKPOINT_BYTES)
  const RELIABLE := Rule(16300, 1048576)

  // The metadata repeated in every chunk of one operation.
  datatype CheckpointMeta = CheckpointMeta(term: nat, sequence: nat, validate: bool)
  datatype ReliableMeta = ReliableMeta(
    group: GroupId,
    source: PeerId,
    destination: PeerId,
    message: GroupMessageId,
    mode: DeliveryMode,
    priority: SendPriority)

  datatype Chunk<+M> = Chunk(meta: M, total: int, index: int, count: int, offset: int, bytes: seq<Byte>)

  function CountFor(rule: Rule, total: int): int
    requires rule.Sound()
  {
    if total == 0 then 1 else (total + rule.unit - 1) / rule.unit
  }

  // The checks of the two chunk constructors, which decoding goes through as well.
  predicate Accepted<M>(rule: Rule, c: Chunk<M>)
    requires rule.Sound()
  {
    && 0 <= c.total <= rule.limit
    && c.count == CountFor(rule, c.total)
    && 0 <= c.index < c.count
    && c.offset == c.index * rule.unit
    && |c.bytes| <= rule.unit
    && (c.total == 0 ==> c.bytes == [])
    && (c.total > 0 ==> c.bytes != [] && c.offset + |c.bytes| <= c.total)
    && (c.index + 1 < c.count ==> |c.bytes| == rule.unit)
    && (c.index + 1 == c.count && c.total > 0 ==> c.offset + |c.bytes| == c.total)
  }

  // Where piece `i` ends: the next multiple of the unit, clamped to the payload.
  function EndOf(rule: Rule, total: nat, i: nat): int {
    Min((i + 1) * rule.unit, total)
  }

  lemma CountPositive(rule: Rule, total: nat)
    requires rule.Sound()
    ensures CountFor(rule, total) > 0
  {
  }

  lemma CountBounds(rule: Rule, total: nat, i: int)
    requires rule.Sound() && 0 <= i < CountFor(rule, total)
    ensures 0 <= i * rule.unit <= EndOf(rule, total, i) <= total
    ensures i + 1 < CountFor(rule, total) ==> EndOf(rule, total, i) == (i + 1) * rule.unit
    ensures i + 1 == CountFor(rule, total) ==> EndOf(rule, total, i) == total
    ensures total > 0 ==> i * rule.unit < total
  {
    var u, n := rule.unit, CountFor(rule, total);
    if total > 0 {
      assert n * u <= total + u - 1 < n * u + u;
      assert i * u <= (n - 1) * u && (n - 1) * u == n * u - u;
      if i + 1 < n { assert (i + 1) * u <= (n - 1) * u; }
      assert (i + 1) * u == i * u + u;
    }
  }

  function Piece(rule: Rule, payload: seq<Byte>, i: nat): (piece: seq<Byte>)
    requires rule.Sound() && i < CountFor(rule, |payload|)
  {
    CountBounds(rule, |payload|, i);
    payload[i * rule.unit..EndOf(rule, |payload|, i)]
  }

  function ChunkAt<M>(rule: Rule, meta: M, payload: seq<Byte>, i: nat): (c: Chunk<M>)
    requires rule.Sound() && i < CountFor(rule, |payload|)
  {
    Chunk(meta, |payload|, i, CountFor(rule, |payload|), i * rule.unit, Piece(rule, payload, i))
  }

  // The sender's chunks, or MessageTooLarge.
  function Split<M>(rule: Rule, meta: M, payload: seq<Byte>): (r: Result<seq<Chunk<M>>>)
    requires rule.Sound()
  {
    if |payload| > rule.limit then Err(MessageTooLarge)
    else Ok(seq(CountFor(rule, |payload|), i requires 0 <= i < CountFor(rule, |payload|) =>
              ChunkAt(rule, meta, payload, i)))
  }

  function Concat(pieces: seq<seq<Byte>>): seq<Byte> {
    if pieces == [] then [] else Concat(pieces[..|pieces| - 1]) + pieces[|pieces| - 1]
  }

  function Pieces(rule: Rule, payload: seq<Byte>, n: nat): (pieces: seq<seq<Byte>>)
    requires rule.Sound() && n <= CountFor(rule, |payload|)
    ensures |pieces| == n && forall i: nat :: i < n ==> pieces[i] == Piece(rule, payload, i)
  {
    seq(n, i requires 0 <= i < n => Piece(rule, payload, i))
  }

  // The first n pieces spell the payload up to where piece n - 1 ends.
  lemma {:induction false} PiecesSpellAPrefix(rule: Rule, payload: seq<Byte>, n: nat)
    requires rule.Sound() && n <= CountFor(rule, |payload|)
    ensures n > 0 ==> 0 <= EndOf(rule, |payload|, n - 1) <= |payload|
    ensures Concat(Pieces(rule, payload, n)) == if n == 0 then [] else payload[..EndOf(rule, |payload|, n - 1)]
  {
    if n > 0 {
      PiecesSpellAPrefix(rule, payload, n - 1);
      CountBounds(rule, |payload|, n - 1);
      assert Pieces(rule, payload, n)[..n - 1] == Pieces(rule, payload, n - 1);
      if n > 1 {
        CountBounds(rule, |payload|, n - 2);
      }
      assert payload[..EndOf(rule, |payload|, n - 1)]
          == payload[..(n - 1) * rule.unit] + Piece(rule, payload, n - 1);
    }
  }

  // The pieces tile the payload exactly, the empty one included.
  lemma PiecesTile(rule: Rule, payload: seq<Byte>)
    requires rule.Sound()
    ensures Concat(Pieces(rule, payload, CountFor(rule, |payload|))) == payload
  {
    var n := CountFor(rule, |payload|);
    CountPositive(rule, |payload|);
    PiecesSpellAPrefix(rule, payload, n);
    CountBounds(rule, |payload|, n - 1);
    assert payload[..|payload|] == payload;
  }

  lemma ChunkAtAccepted<M>(rule: Rule, meta: M, payload: seq<Byte>, i: nat)
    requires rule.Sound() && |payload| <= rule.limit && i < CountFor(rule, |payload|)
    ensures Accepted(rule, ChunkAt(rule, meta, payload, i))
  {
    CountBounds(rule, |payload|, i);
    assert (i + 1) * rule.unit == i * rule.unit + rule.unit;
  }

  // The payload that has `c.bytes` where the chunk says, and zeroes elsewhere.
  function Witness<M>(rule: Rule, c: Chunk<M>): (payload: seq<Byte>)
    requires rule.Sound() && Accepted(rule, c)
  {
    seq(c.total, j requires 0 <= j < c.total =>
      if 0 <= j - c.offset < |c.bytes| then c.bytes[j - c.offset] else 0)
  }

  lemma WitnessCuts<M>(rule: Rule, c: Chunk<M>)
    requires rule.Sound() && Accepted(rule, c)
    ensures |Witness(rule, c)| <= rule.limit && c == ChunkAt(rule, c.meta, Witness(rule, c), c.index)
  {
    CountBounds(rule, c.total, c.index);
    assert (c.index + 1) * rule.unit == c.offset + rule.unit;
    assert Piece(rule, Witness(rule, c), c.index) == c.bytes;
  }

  // The constructor accepts exactly the chunks some sender could have cut.
  lemma AcceptedIffCut<M>(rule: Rule, c: Chunk<M>)
    requires rule.Sound()
    ensures Accepted(rule, c)
            <==> exists payload: seq<Byte>, i: nat ::
                   |payload| <= rule.limit && i < CountFor(rule, |payload|) && c == ChunkAt(rule, c.meta, payload, i)
  {
    if Accepted(rule, c) { WitnessCuts(rule, c); }
    if payload: seq<Byte>, i: nat :|
         |payload| <= rule.limit && i < CountFor(rule, |payload|) && c == ChunkAt(rule, c.meta, payload, i) {
      ChunkAtAccepted(rule, c.meta, payload, i);
    }
  }

  // All chunks of two payloads agree only if the payloads do.
  lemma ChunksDetermine<M>(rule: Rule, meta: M, p: seq<Byte>, other: M, q: seq<Byte>)
    requires rule.Sound()
    requires forall i: nat :: i < CountFor(rule, |p|) ==>
               i < CountFor(rule, |q|) && ChunkAt(rule, meta, p, i) == ChunkAt(rule, other, q, i)
    ensures meta == other && p == q
  {
    var n := CountFor(rule, |p|);
    CountPositive(rule, |p|);
    assert ChunkAt(rule, meta, p, 0) == ChunkAt(rule, other, q, 0);
    assert |p| == |q| && meta == other;
    forall i: nat | i < n ensures Piece(rule, p, i) == Piece(rule, q, i) {
      assert ChunkAt(rule, meta, p, i) == ChunkAt(rule, other, q, i);
    }
    assert Pieces(rule, p, n) == Pieces(rule, q, n);
    PiecesTile(rule, p);
    PiecesTile(rule, q);
  }

  // What a sender gets, in full: too large, or at least one chunk, one per index, each
  // acceptable to the receiver's constructor, whose bytes in index order are the payload.
  lemma SplitTiles<M>(rule: Rule, meta: M, payload: seq<Byte>)
    requires rule.Sound()
    ensures Split(rule, meta, payload) == Err(MessageTooLarge) <==> |payload| > rule.limit
    ensures Split(rule, meta, payload).Ok? ==>
              var chunks := Split(rule, meta, payload).value;
              && 0 < |chunks|
              && (|chunks| - 1) * rule.unit <= |payload| <= |chunks| * rule.unit
              && (payload == [] ==> |chunks| == 1 && chunks[0].bytes == [])
              && (forall i: nat :: i < |chunks| ==>
                    && Accepted(rule, chunks[i])
                    && chunks[i].index == i
                    && (payload != [] ==> chunks[i].bytes != []))
              && Concat(seq(|chunks|, i requires 0 <= i < |chunks| => chunks[i].bytes)) == payload
  {
    var r := Split(rule, meta, payload);
    if r.Ok? {
      var n := CountFor(rule, |payload|);
      CountPositive(rule, |payload|);
      CountBounds(rule, |payload|, n - 1);
      assert n * rule.unit == (n - 1) * rule.unit + rule.unit;
      forall i: nat | i < n ensures Accepted(rule, r.value[i]) && (payload != [] ==> r.value[i].bytes != []) {
        ChunkAtAccepted(rule, meta, payload, i);
      }
      assert seq(n, i requires 0 <= i < n => r.value[i].bytes) == Pieces(rule, payload, n);
      PiecesTile(rule, payload);
    }
  }
}
