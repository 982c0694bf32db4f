/**
 Runs of one reassembler: chunks of any operations in any order and multiplicity, any
 clock readings, and changes of transport generation that do or do not clear it.
 */
module ReassemblyRuns {
  import opened Types
  import opened Chunks
  import opened Reassembly

  datatype Event<+M> =
    | Arrives(id: nat, chunk: Chunk<M>, now: int)
    | GenerationChanges(cleared: bool)

  // History: a chunk that was accepted, and an operation that was completed with pieces
  // that arrived from generation `first` to generation `last`.
  datatype Arrival<+M> = Arrival(generation: nat, id: nat, chunk: Chunk<M>)
  datatype Completion<+M> = Completion(first: nat, last: nat, id: nat, whole: Whole<M>)

  datatype History<+M> = History(
    table: map<nat, Partial<M>>,
    generation: nat,
    born: map<nat, nat>,        // the generation that opened each partial operation
    log: seq<Arrival<M>>,
    done: seq<Completion<M>>)

  ghost function BornAfter<M>(h: History<M>, id: nat, now: int): nat {
    if id in Live(h.table, now) && id in h.born then h.born[id] else h.generation
  }

  ghost function Step<M>(rule: Rule, limits: Limits, h: History<M>, e: Event<M>): History<M>
    requires rule.Sound()
  {
    match e
    case GenerationChanges(cleared) =>
      h.(generation := h.generation + 1, table := if cleared then map[] else h.table)
    case Arrives(id, c, now) =>
      var (r, after) := Receive(rule, limits, h.table, id, c, now);
      match r
      case Err(_) => h.(table := after)
      case Ok(result) =>
        var born := BornAfter(h, id, now);
        History(after, h.generation, h.born[id := born], h.log + [Arrival(h.generation, id, c)],
                if result.Some? then h.done + [Completion(born, h.generation, id, result.value)] else h.done)
  }

  ghost function Run<M>(rule: Rule, limits: Limits, events: seq<Event<M>>): History<M>
    requires rule.Sound()
  {
    if events == [] then History(map[], 0, map[], [], [])
    else Step(rule, limits, Run(rule, limits, events[..|events| - 1]), events[|events| - 1])
  }

  // ---------- every piece came in ----------

  ghost predicate Logged<M>(log: seq<Arrival<M>>, first: nat, last: nat, id: nat, c: Chunk<M>) {
    exists k :: 0 <= k < |log| && first <= log[k].generation <= last && log[k].id == id && log[k].chunk == c
  }

  lemma LoggedStays<M>(log: seq<Arrival<M>>, more: seq<Arrival<M>>, first: nat, last: nat, later: nat, id: nat, c: Chunk<M>)
    requires Logged(log, first, last, id, c) && last <= later
    ensures Logged(log + more, first, later, id, c)
  {
    var k :| 0 <= k < |log| && first <= log[k].generation <= last && log[k].id == id && log[k].chunk == c;
    assert (log + more)[k] == log[k];
  }

  ghost predicate Backed<M>(rule: Rule, log: seq<Arrival<M>>, first: nat, last: nat, id: nat, p: Partial<M>) {
    forall i: nat :: i < |p.pieces| && p.pieces[i].Some? ==> Logged(log, first, last, id, StoredChunk(rule, p, i))
  }

  // Cutting the completed operation again gives only chunks that arrived under its id.
  ghost predicate Genuine<M>(rule: Rule, log: seq<Arrival<M>>, d: Completion<M>)
    requires rule.Sound()
  {
    && d.first <= d.last
    && |d.whole.bytes| <= rule.limit
    && forall i: nat :: i < CountFor(rule, |d.whole.bytes|) ==>
         Logged(log, d.first, d.last, d.id, ChunkAt(rule, d.whole.meta, d.whole.bytes, i))
  }

  ghost predicate PartialsBacked<M>(rule: Rule, h: History<M>) {
    forall id :: id in h.table ==>
      id in h.born && h.born[id] <= h.generation && Backed(rule, h.log, h.born[id], h.generation, id, h.table[id])
  }

  ghost predicate DoneGenuine<M>(rule: Rule, h: History<M>)
    requires rule.Sound()
  {
    forall k :: 0 <= k < |h.done| ==> Genuine(rule, h.log, h.done[k])
  }

  ghost predicate Inv<M>(rule: Rule, limits: Limits, h: History<M>)
    requires rule.Sound()
  {
    && TableInv(rule, limits, h.table)
    && PartialsBacked(rule, h)
    && DoneGenuine(rule, h)
  }

  lemma BackedStays<M>(rule: Rule, log: seq<Arrival<M>>, more: seq<Arrival<M>>, first: nat, last: nat, later: nat,
                       id: nat, p: Partial<M>)
    requires Backed(rule, log, first, last, id, p) && last <= later
    ensures Backed(rule, log + more, first, later, id, p)
  {
    forall i: nat | i < |p.pieces| && p.pieces[i].Some?
      ensures Logged(log + more, first, later, id, StoredChunk(rule, p, i))
    {
      LoggedStays(log, more, first, last, later, id, StoredChunk(rule, p, i));
    }
  }

  lemma GenuineStays<M>(rule: Rule, log: seq<Arrival<M>>, more: seq<Arrival<M>>, d: Completion<M>)
    requires rule.Sound() && Genuine(rule, log, d)
    ensures Genuine(rule, log + more, d)
  {
    forall i: nat | i < CountFor(rule, |d.whole.bytes|)
      ensures Logged(log + more, d.first, d.last, d.id, ChunkAt(rule, d.whole.meta, d.whole.bytes, i))
    {
      LoggedStays(log, more, d.first, d.last, d.last, d.id, ChunkAt(rule, d.whole.meta, d.whole.bytes, i));
    }
  }

  // The operation that a chunk was added to is backed by the log with that chunk.
  lemma GrownBacked<M>(rule: Rule, limits: Limits, h: History<M>, id: nat, c: Chunk<M>, now: int)
    requires rule.Sound() && Inv(rule, limits, h) && Accepted(rule, c)
    requires Target(limits, Live(h.table, now), id, c, now).Ok?
    ensures var grown := WithPiece(Target(limits, Live(h.table, now), id, c, now).value, c, now);
            && WellCut(rule, grown)
            && Backed(rule, h.log + [Arrival(h.generation, id, c)], BornAfter(h, id, now), h.generation, id, grown)
  {
    LiveKeeps(rule, limits, h.table, now);
    TargetWellCut(rule, limits, Live(h.table, now), id, c, now);
    var p := Target(limits, Live(h.table, now), id, c, now).value;
    var grown := WithPiece(p, c, now);
    var log := h.log + [Arrival(h.generation, id, c)];
    var first := BornAfter(h, id, now);
    forall i: nat | i < |grown.pieces| && grown.pieces[i].Some?
      ensures Logged(log, first, h.generation, id, StoredChunk(rule, grown, i))
    {
      if i == c.index {
        assert StoredChunk(rule, grown, i) == c;
        assert log[|h.log|] == Arrival(h.generation, id, c);
      } else {
        assert StoredChunk(rule, grown, i) == StoredChunk(rule, p, i);
        assert id in Live(h.table, now) && p == h.table[id];
        LoggedStays(h.log, [Arrival(h.generation, id, c)], first, h.generation, h.generation, id, StoredChunk(rule, p, i));
      }
    }
  }

  lemma WholeGenuine<M>(rule: Rule, log: seq<Arrival<M>>, first: nat, last: nat, id: nat, p: Partial<M>)
    requires rule.Sound() && WellCut(rule, p) && Complete(p.pieces) && first <= last
    requires Backed(rule, log, first, last, id, p)
    ensures Genuine(rule, log, Completion(first, last, id, Whole(p.meta, Concat(Values(p.pieces)))))
  {
    JoinedCuts(rule, p);
    var bytes := Concat(Values(p.pieces));
    forall i: nat | i < CountFor(rule, |bytes|) ensures Logged(log, first, last, id, ChunkAt(rule, p.meta, bytes, i)) {
      assert ChunkAt(rule, p.meta, bytes, i) == StoredChunk(rule, p, i);
    }
  }

  // A partial operation that the arrival did not touch.
  lemma UntouchedBacked<M>(rule: Rule, h: History<M>, log: seq<Arrival<M>>, k: nat)
    requires PartialsBacked(rule, h) && k in h.table && |h.log| <= |log| && log[..|h.log|] == h.log
    ensures Backed(rule, log, h.born[k], h.generation, k, h.table[k])
  {
    BackedStays(rule, h.log, log[|h.log|..], h.born[k], h.generation, h.generation, k, h.table[k]);
    assert h.log + log[|h.log|..] == log;
  }

  lemma ArrivalKeepsPartials<M>(rule: Rule, limits: Limits, h: History<M>, id: nat, c: Chunk<M>, now: int)
    requires rule.Sound() && Inv(rule, limits, h)
    ensures PartialsBacked(rule, Step(rule, limits, h, Arrives(id, c, now)))
  {
    var after := Step(rule, limits, h, Arrives(id, c, now));
    var accepted := Receive(rule, limits, h.table, id, c, now).0.Ok?;
    assert after.log == if accepted then h.log + [Arrival(h.generation, id, c)] else h.log;
    if accepted { GrownBacked(rule, limits, h, id, c, now); }
    forall k | k in after.table
      ensures k in after.born && after.born[k] <= after.generation
      ensures Backed(rule, after.log, after.born[k], after.generation, k, after.table[k])
    {
      if k != id || !accepted {
        assert k in h.table && after.table[k] == h.table[k];
        UntouchedBacked(rule, h, after.log, k);
      }
    }
  }

  lemma ArrivalKeepsDone<M>(rule: Rule, limits: Limits, h: History<M>, id: nat, c: Chunk<M>, now: int)
    requires rule.Sound() && Inv(rule, limits, h)
    ensures DoneGenuine(rule, Step(rule, limits, h, Arrives(id, c, now)))
  {
    var after := Step(rule, limits, h, Arrives(id, c, now));
    if after.log != h.log {
      GrownBacked(rule, limits, h, id, c, now);
      var grown := WithPiece(Target(limits, Live(h.table, now), id, c, now).value, c, now);
      if Complete(grown.pieces) {
        WholeGenuine(rule, after.log, BornAfter(h, id, now), h.generation, id, grown);
      }
    }
    forall k | 0 <= k < |h.done| ensures Genuine(rule, after.log, h.done[k]) {
      GenuineStays(rule, h.log, after.log[|h.log|..], h.done[k]);
      assert h.log + after.log[|h.log|..] == after.log;
    }
  }

  lemma ChangeKeeps<M>(rule: Rule, limits: Limits, h: History<M>, cleared: bool)
    requires rule.Sound() && Inv(rule, limits, h)
    ensures Inv(rule, limits, Step(rule, limits, h, GenerationChanges(cleared)))
  {
    if !cleared {
      forall id | id in h.table ensures Backed(rule, h.log, h.born[id], h.generation + 1, id, h.table[id]) {
        BackedStays(rule, h.log, [], h.born[id], h.generation, h.generation + 1, id, h.table[id]);
        assert h.log + [] == h.log;
      }
    }
  }

  lemma {:induction false} InvHolds<M>(rule: Rule, limits: Limits, events: seq<Event<M>>)
    requires rule.Sound()
    ensures Inv(rule, limits, Run(rule, limits, events))
  {
    if events != [] {
      var before, e := events[..|events| - 1], events[|events| - 1];
      InvHolds(rule, limits, before);
      var h := Run(rule, limits, before);
      match e {
        case GenerationChanges(cleared) => ChangeKeeps(rule, limits, h, cleared);
        case Arrives(id, c, now) =>
          ReceiveKeeps(rule, limits, h.table, id, c, now);
          ArrivalKeepsPartials(rule, limits, h, id, c, now);
          ArrivalKeepsDone(rule, limits, h, id, c, now);
      }
    }
  }
}
