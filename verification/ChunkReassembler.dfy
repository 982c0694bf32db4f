/**
 The reassembler as the object the runtime keeps per connection: its table of partial
 operations and its running byte count, updated in place.
 */
module ChunkReassembler {
  import opened Types
  import opened Chunks
  import opened Reassembly

  // The library's range copy.
  method SetRange(output: array<Byte>, offset: nat, piece: seq<Byte>)
    requires offset + |piece| <= output.Length
    modifies output
    ensures output[..] == old(output[..offset]) + piece + old(output[offset + |piece|..])
  {
    forall k | 0 <= k < |piece| { output[offset + k] := piece[k]; }
  }

  // Copies the pieces one after the other into a buffer of the announced length.
  method Join<M>(rule: Rule, p: Partial<M>) returns (bytes: seq<Byte>)
    requires rule.Sound() && WellCut(rule, p) && Complete(p.pieces)
    ensures bytes == Concat(Values(p.pieces)) && |bytes| == p.total
  {
    JoinedCuts(rule, p);
    var values := Values(p.pieces);
    var output := new Byte[p.total];
    var offset, i := 0, 0;
    while i < |values|
      invariant 0 <= i <= |values|
      invariant offset == |Concat(values[..i])| <= p.total
      invariant output[..offset] == Concat(values[..i])
    {
      PieceFits(rule, p, i);
      SetRange(output, offset, values[i]);
      assert output[..offset + |values[i]|] == Concat(values[..i]) + values[i];
      offset, i := offset + |values[i]|, i + 1;
    }
    assert values[..i] == values;
    bytes := output[..];
    assert output[..p.total] == output[..];
  }

  lemma PieceFits<M>(rule: Rule, p: Partial<M>, i: nat)
    requires rule.Sound() && WellCut(rule, p) && Complete(p.pieces) && i < |p.pieces|
    ensures Concat(Values(p.pieces)[..i + 1]) == Concat(Values(p.pieces)[..i]) + Values(p.pieces)[i]
    ensures |Concat(Values(p.pieces)[..i + 1])| <= p.total
  {
    ConcatLength(rule, p, i + 1);
    CountBounds(rule, p.total, i);
  }

  lemma MinusGrows<M>(table: map<nat, Partial<M>>, expired: set<nat>, rest: set<nat>, id: nat)
    requires id in rest && rest <= expired
    ensures table - (expired - rest) - {id} == table - (expired - (rest - {id}))
  {
    assert expired - (rest - {id}) == expired - rest + {id};
  }

  lemma ReplacingForgets<M>(table: map<nat, Partial<M>>, id: nat, p: Partial<M>, q: Partial<M>)
    ensures table[id := p] - {id} == table - {id}
    ensures table[id := p][id := q] == table[id := q]
  {
  }

  class Reassembler<M(==)> {
    const rule: Rule
    const limits: Limits
    var messages: map<nat, Partial<M>>
    var bufferedBytes: int

    ghost predicate Valid()
      reads this
    {
      && rule.Sound()
      && TableInv(rule, limits, messages)
      && bufferedBytes == Total(messages)
    }

    constructor (rule: Rule, limits: Limits)
      requires rule.Sound()
      ensures Valid() && messages == map[] && this.rule == rule && this.limits == limits
    {
      this.rule, this.limits := rule, limits;
      messages, bufferedBytes := map[], 0;
    }

    method ExpireInactive(now: int)
      requires Valid()
      modifies this
      ensures Valid() && messages == Live(old(messages), now)
    {
      var expired := set id | id in messages && messages[id].updated < now - INACTIVITY_MS;
      LiveKeeps(rule, limits, messages, now);
      Remove(expired);
      assert messages == Live(old(messages), now);
    }

    method Remove(expired: set<nat>)
      requires bufferedBytes == Total(messages) && expired <= messages.Keys
      modifies this
      ensures bufferedBytes == Total(messages) && messages == old(messages) - expired
    {
      var rest := expired;
      while rest != {}
        invariant rest <= expired
        invariant messages == old(messages) - (expired - rest)
        invariant bufferedBytes == Total(messages)
        decreases |rest|
      {
        var id :| id in rest;
        TotalWithout(messages, id);
        MinusGrows(old(messages), expired, rest, id);
        bufferedBytes := bufferedBytes - messages[id].total;
        messages, rest := messages - {id}, rest - {id};
      }
    }

    // The partial operation of a MessageId, created when the limits admit it.
    method Open(id: nat, c: Chunk<M>, now: int) returns (r: Result<Partial<M>>)
      requires Valid() && 0 <= c.total && 0 <= c.count
      modifies this
      ensures r == Target(limits, old(messages), id, c, now)
      ensures messages == if r.Ok? then old(messages)[id := r.value] else old(messages)
      ensures bufferedBytes == Total(messages)
    {
      if id in messages {
        if !SameShape(messages[id], c) { return Err(MessageIdCollision); }
        assert messages[id := messages[id]] == messages;
        return Ok(messages[id]);
      }
      if limits.AtMost? && (|messages| >= limits.messages || bufferedBytes + c.total > limits.bytes) {
        return Err(ResourceExhausted);
      }
      TotalUpdated(messages, id, Fresh(c, now));
      messages, bufferedBytes := messages[id := Fresh(c, now)], bufferedBytes + c.total;
      r := Ok(messages[id]);
    }

    // Stores a piece, and takes the operation out of the table when it was the last one.
    method Store(id: nat, c: Chunk<M>, now: int) returns (whole: Option<Whole<M>>)
      requires rule.Sound() && id in messages && bufferedBytes == Total(messages)
      requires 0 <= c.index < |messages[id].pieces| && WellCut(rule, WithPiece(messages[id], c, now))
      modifies this
      ensures bufferedBytes == Total(messages)
      ensures var grown := WithPiece(old(messages)[id], c, now);
              if Complete(grown.pieces) then
                messages == old(messages) - {id} && whole == Some(Whole(grown.meta, Concat(Values(grown.pieces))))
              else
                messages == old(messages)[id := grown] && whole == None
    {
      var partial := WithPiece(messages[id], c, now);
      if !Complete(partial.pieces) {
        TotalUpdated(messages, id, partial);
        messages := messages[id := partial];
        return None;
      }
      TotalWithout(messages, id);
      messages, bufferedBytes := messages - {id}, bufferedBytes - partial.total;
      var bytes := Join(rule, partial);
      whole := Some(Whole(partial.meta, bytes));
    }

    method Add(id: nat, c: Chunk<M>, now: int) returns (r: Result<Option<Whole<M>>>)
      requires Valid()
      modifies this
      ensures Valid()
      ensures (r, messages) == Receive(rule, limits, old(messages), id, c, now)
    {
      if !Accepted(rule, c) { return Err(ProtocolMismatch); }
      ReceiveKeeps(rule, limits, messages, id, c, now);
      ExpireInactive(now);
      r := AddLive(id, c, now);
    }

    // The rest of `Add`, once inactive operations are gone.
    method AddLive(id: nat, c: Chunk<M>, now: int) returns (r: Result<Option<Whole<M>>>)
      requires Valid() && Accepted(rule, c)
      modifies this
      ensures bufferedBytes == Total(messages)
      ensures (r, messages) == ReceiveLive(limits, old(messages), id, c, now)
    {
      ghost var live := messages;
      var partial := Open(id, c, now);
      if partial.Err? { return Err(partial.error); }
      TargetWellCut(rule, limits, live, id, c, now);
      if Conflicts(partial.value, c) {
        assert messages == live;
        return Err(MessageIdCollision);
      }
      ReplacingForgets(live, id, partial.value, WithPiece(partial.value, c, now));
      var whole := Store(id, c, now);
      r := Ok(whole);
    }

    // A lost transport generation, or a former coordinator's partial operations.
    method Clear()
      requires Valid()
      modifies this
      ensures Valid() && messages == map[]
    {
      messages, bufferedBytes := map[], 0;
    }
  }
}
