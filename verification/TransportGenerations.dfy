/**
 Chunks of two transport generations: when the reassembler is cleared on every change
 they are never combined, and a change that leaves partial operations in the table can
 always lead to a combination. The runtime clears the reassembler of routed reliable hops
 when a peer starts reconnecting, and does not clear that of checkpoints.
 */
module TransportGenerations {
  import opened Types
  import opened Chunks
  import opened Reassembly
  import opened ReassemblyRuns
  import opened ReassemblyGuarantees

  // Everything completed, and everything partial, is of one generation.
  ghost predicate Unmixed<M>(done: seq<Completion<M>>) {
    forall k :: 0 <= k < |done| ==> done[k].first == done[k].last
  }

  ghost predicate Separated<M>(h: History<M>) {
    && (forall id :: id in h.table ==> id in h.born && h.born[id] == h.generation)
    && Unmixed(h.done)
  }

  lemma ArrivalKeepsSeparated<M>(rule: Rule, limits: Limits, h: History<M>, e: Event<M>)
    requires rule.Sound() && Separated(h) && e.Arrives?
    ensures Separated(Step(rule, limits, h, e))
  {
  }

  ghost predicate AlwaysCleared<M>(events: seq<Event<M>>) {
    forall j :: 0 <= j < |events| && events[j].GenerationChanges? ==> events[j].cleared
  }

  lemma {:induction false} SeparatedHolds<M>(rule: Rule, limits: Limits, events: seq<Event<M>>)
    requires rule.Sound() && AlwaysCleared(events)
    ensures Separated(Run(rule, limits, events))
  {
    if events != [] {
      SeparatedHolds(rule, limits, events[..|events| - 1]);
      if events[|events| - 1].Arrives? {
        ArrivalKeepsSeparated(rule, limits, Run(rule, limits, events[..|events| - 1]), events[|events| - 1]);
      }
    }
  }

  // With the reassembler cleared on every change, all chunks of a completed operation
  // arrived in one and the same generation.
  lemma OneGeneration<M>(rule: Rule, limits: Limits, events: seq<Event<M>>, k: nat, i: nat)
    requires rule.Sound() && AlwaysCleared(events) && k < |Run(rule, limits, events).done|
    requires i < CountFor(rule, |Run(rule, limits, events).done[k].whole.bytes|)
    ensures var h := Run(rule, limits, events);
            var d := h.done[k];
            Logged(h.log, d.last, d.last, d.id, ChunkAt(rule, d.whole.meta, d.whole.bytes, i))
  {
    SeparatedHolds(rule, limits, events);
    CompletedFromItsChunks(rule, limits, events, k, i);
  }

  // ---------- a change that does not clear ----------

  // The whole operation again from chunk 0, as after RESUME.
  ghost function Resend<M>(rule: Rule, id: nat, whole: Whole<M>, now: int, n: nat): (events: seq<Event<M>>)
    requires rule.Sound() && n <= CountFor(rule, |whole.bytes|)
    ensures |events| == n
    ensures forall k: nat :: k < n ==> events[k] == Arrives(id, ChunkAt(rule, whole.meta, whole.bytes, k), now)
  {
    seq(n, k requires 0 <= k < n => Arrives(id, ChunkAt(rule, whole.meta, whole.bytes, k), now))
  }

  // Up to the last missing piece, a resend adds pieces to the partial operation it finds.
  lemma {:induction false} ResendFills<M>(rule: Rule, limits: Limits, h: History<M>, id: nat, whole: Whole<M>, got: set<nat>,
                                          m: nat, k: nat)
    requires rule.Sound() && |whole.bytes| <= rule.limit
    requires id in h.table && id in h.born && Holds(rule, h.table, id, whole, got) && got != {}
    requires got <= Indices(rule, whole) && m in Indices(rule, whole) && m !in got && k <= m
    ensures var now := h.table[id].updated;
            var after := RunFrom(rule, limits, h, Resend(rule, id, whole, now, k));
            && Holds(rule, after.table, id, whole, got + UpTo(k))
            && after.table[id].updated == now
            && after.generation == h.generation && after.done == h.done
            && id in after.born && after.born[id] == h.born[id]
  {
    var now := h.table[id].updated;
    if k == 0 {
      assert got + UpTo(0) == got;
    } else {
      ResendFills(rule, limits, h, id, whole, got, m, k - 1);
      var events := Resend(rule, id, whole, now, k);
      assert events[..k - 1] == Resend(rule, id, whole, now, k - 1);
      var mid := RunFrom(rule, limits, h, events[..k - 1]);
      assert m !in got + UpTo(k - 1);
      OwnArrival(rule, limits, mid, id, whole, got + UpTo(k - 1), events[k - 1]);
      assert got + UpTo(k - 1) + {k - 1} == got + UpTo(k);
      assert m !in got + UpTo(k);
    }
  }

  // With the last missing piece the resend completes an operation that began before.
  lemma ResendCompletes<M>(rule: Rule, limits: Limits, h: History<M>, id: nat, whole: Whole<M>, got: set<nat>, m: nat)
    requires rule.Sound() && |whole.bytes| <= rule.limit
    requires id in h.table && id in h.born && Holds(rule, h.table, id, whole, got) && got != {}
    requires got <= Indices(rule, whole) && m in Indices(rule, whole) && m !in got
    requires forall i: nat :: m < i && i in Indices(rule, whole) ==> i in got
    ensures RunFrom(rule, limits, h, Resend(rule, id, whole, h.table[id].updated, m + 1)).done
         == h.done + [Completion(h.born[id], h.generation, id, whole)]
  {
    var now := h.table[id].updated;
    ResendFills(rule, limits, h, id, whole, got, m, m);
    var events := Resend(rule, id, whole, now, m + 1);
    assert events[..m] == Resend(rule, id, whole, now, m);
    LastMissingArrives(rule, limits, RunFrom(rule, limits, h, events[..m]), id, whole, got + UpTo(m), m);
  }

  lemma LastMissingArrives<M>(rule: Rule, limits: Limits, h: History<M>, id: nat, whole: Whole<M>, got: set<nat>, m: nat)
    requires rule.Sound() && |whole.bytes| <= rule.limit
    requires id in h.table && id in h.born && Holds(rule, h.table, id, whole, got) && got != {}
    requires got <= Indices(rule, whole) && m in Indices(rule, whole) && m !in got
    requires forall i: nat :: i != m && i in Indices(rule, whole) ==> i in got
    ensures Step(rule, limits, h, Arrives(id, ChunkAt(rule, whole.meta, whole.bytes, m), h.table[id].updated)).done
         == h.done + [Completion(h.born[id], h.generation, id, whole)]
  {
    OwnArrival(rule, limits, h, id, whole, got, Arrives(id, ChunkAt(rule, whole.meta, whole.bytes, m), h.table[id].updated));
    assert got + {m} == Indices(rule, whole);
  }

  // Some operation fits what a partial one holds.
  lemma SomeWholeFits<M>(rule: Rule, p: Partial<M>) returns (whole: Whole<M>)
    requires rule.Sound() && WellCut(rule, p)
    ensures whole.meta == p.meta && |whole.bytes| == p.total
    ensures forall i: nat :: i < |p.pieces| && p.pieces[i].Some? ==> p.pieces[i].value == Piece(rule, whole.bytes, i)
  {
    var zeros: seq<Byte> := seq(p.total, j => 0);
    var filled := p.(pieces := seq(|p.pieces|, i requires 0 <= i < |p.pieces| =>
      if p.pieces[i].Some? then p.pieces[i] else Some(Piece(rule, zeros, i))));
    forall i: nat | i < |filled.pieces| ensures Accepted(rule, StoredChunk(rule, filled, i)) {
      ChunkAtAccepted(rule, p.meta, zeros, i);
      if p.pieces[i].Some? {
        assert StoredChunk(rule, filled, i) == StoredChunk(rule, p, i);
      } else {
        assert StoredChunk(rule, filled, i) == ChunkAt(rule, p.meta, zeros, i);
      }
    }
    JoinedCuts(rule, filled);
    whole := Whole(p.meta, Concat(Values(filled.pieces)));
    forall i: nat | i < |p.pieces| && p.pieces[i].Some? ensures p.pieces[i].value == Piece(rule, whole.bytes, i) {
      assert ChunkAt(rule, p.meta, whole.bytes, i) == StoredChunk(rule, filled, i);
    }
  }

  ghost function StoredIndices<M>(p: Partial<M>): (s: set<nat>)
    ensures forall i: nat :: i in s <==> i < |p.pieces| && p.pieces[i].Some?
  {
    set i: nat | i < |p.pieces| && p.pieces[i].Some?
  }

  lemma LastMissing<M>(p: Partial<M>, n: nat) returns (m: nat)
    requires n <= |p.pieces| && exists i :: 0 <= i < n && p.pieces[i].None?
    ensures m < n && p.pieces[m].None? && forall i: nat :: m < i < n ==> p.pieces[i].Some?
  {
    if p.pieces[n - 1].None? { m := n - 1; } else { m := LastMissing(p, n - 1); }
  }

  // Some chunk of every partial operation has arrived.
  ghost predicate AllBegun<M>(table: map<nat, Partial<M>>) {
    forall id :: id in table ==> exists i :: 0 <= i < |table[id].pieces| && table[id].pieces[i].Some?
  }

  lemma {:induction false} BegunHolds<M>(rule: Rule, limits: Limits, events: seq<Event<M>>)
    requires rule.Sound()
    ensures AllBegun(Run(rule, limits, events).table)
  {
    if events != [] {
      BegunHolds(rule, limits, events[..|events| - 1]);
      var h, e := Run(rule, limits, events[..|events| - 1]), events[|events| - 1];
      if e.Arrives? && Accepted(rule, e.chunk) && Target(limits, Live(h.table, e.now), e.id, e.chunk, e.now).Ok? {
        var p := Target(limits, Live(h.table, e.now), e.id, e.chunk, e.now).value;
        assert WithPiece(p, e.chunk, e.now).pieces[e.chunk.index].Some?;
      }
    }
  }

  ghost predicate OnlyArrivals<M>(events: seq<Event<M>>) {
    forall j :: 0 <= j < |events| ==> events[j].Arrives?
  }

  lemma {:induction false} ArrivalsKeepSeparated<M>(rule: Rule, limits: Limits, h: History<M>, events: seq<Event<M>>)
    requires rule.Sound() && Separated(h) && OnlyArrivals(events)
    ensures Separated(RunFrom(rule, limits, h, events))
  {
    if events != [] {
      ArrivalsKeepSeparated(rule, limits, h, events[..|events| - 1]);
      ArrivalKeepsSeparated(rule, limits, RunFrom(rule, limits, h, events[..|events| - 1]), events[|events| - 1]);
    }
  }

  lemma UnclearedChangeMixes<M>(rule: Rule, limits: Limits, h: History<M>, id: nat) returns (events: seq<Event<M>>)
    requires rule.Sound() && Inv(rule, limits, h) && AllBegun(h.table) && id in h.table
    ensures OnlyArrivals(events)
    ensures !Unmixed(RunFrom(rule, limits, Step(rule, limits, h, GenerationChanges(false)), events).done)
  {
    var after := Step(rule, limits, h, GenerationChanges(false));
    var whole;
    whole, events := ResendMixes(rule, limits, after, id);
    var done := RunFrom(rule, limits, after, events).done;
    assert done[|h.done|] == Completion(h.born[id], h.generation + 1, id, whole);
  }

  lemma ResendMixes<M>(rule: Rule, limits: Limits, h: History<M>, id: nat) returns (whole: Whole<M>, events: seq<Event<M>>)
    requires rule.Sound() && id in h.table && id in h.born && AllBegun(h.table)
    requires WellCut(rule, h.table[id]) && !Complete(h.table[id].pieces)
    ensures OnlyArrivals(events)
    ensures RunFrom(rule, limits, h, events).done == h.done + [Completion(h.born[id], h.generation, id, whole)]
  {
    var got;
    whole, got := HeldWhole(rule, h.table, id);
    var m := LastMissing(h.table[id], |h.table[id].pieces|);
    ResendCompletes(rule, limits, h, id, whole, got, m);
    events := Resend(rule, id, whole, h.table[id].updated, m + 1);
  }

  // A partial operation holds some of the pieces of some operation.
  lemma HeldWhole<M>(rule: Rule, table: map<nat, Partial<M>>, id: nat) returns (whole: Whole<M>, got: set<nat>)
    requires rule.Sound() && AllBegun(table) && id in table && WellCut(rule, table[id])
    ensures |whole.bytes| <= rule.limit && Holds(rule, table, id, whole, got) && got != {} && got <= Indices(rule, whole)
    ensures forall i: nat :: i in got <==> i < |table[id].pieces| && table[id].pieces[i].Some?
    ensures CountFor(rule, |whole.bytes|) == |table[id].pieces|
  {
    whole := SomeWholeFits(rule, table[id]);
    got := StoredIndices(table[id]);
    var i :| 0 <= i < |table[id].pieces| && table[id].pieces[i].Some?;
    assert i in got;
  }

  // After any run that kept generations apart, the next change of generation is safe
  // exactly when it clears the table or finds it empty.
  lemma ChangeSafeIff<M>(rule: Rule, limits: Limits, past: seq<Event<M>>, cleared: bool)
    requires rule.Sound() && Separated(Run(rule, limits, past))
    ensures var h := Run(rule, limits, past);
            cleared || h.table == map[]
            <==> forall events :: OnlyArrivals(events) ==>
                   Unmixed(RunFrom(rule, limits, Step(rule, limits, h, GenerationChanges(cleared)), events).done)
  {
    var h := Run(rule, limits, past);
    InvHolds(rule, limits, past);
    BegunHolds(rule, limits, past);
    var after := Step(rule, limits, h, GenerationChanges(cleared));
    if cleared || h.table == map[] {
      forall events | OnlyArrivals(events) ensures Unmixed(RunFrom(rule, limits, after, events).done) {
        ArrivalsKeepSeparated(rule, limits, after, events);
      }
    } else {
      var id :| id in h.table;
      var events := UnclearedChangeMixes(rule, limits, h, id);
    }
  }

  // ---------- the two receivers of a connection ----------

  // What the runtime passes on for one peer.
  datatype HopEvent =
    | ReliableChunk(id: nat, reliable: Chunk<ReliableMeta>, at: int)
    | CheckpointChunk(id: nat, checkpoint: Chunk<CheckpointMeta>, at: int)
    | PeerReconnecting
    | FrameStreamFailed

  ghost function ReliableEvents(events: seq<HopEvent>): seq<Event<ReliableMeta>> {
    if events == [] then []
    else
      ReliableEvents(events[..|events| - 1]) +
      match events[|events| - 1]
      case ReliableChunk(id, c, at) => [Arrives(id, c, at)]
      case CheckpointChunk(_, _, _) => []
      case PeerReconnecting => [GenerationChanges(true)]
      case FrameStreamFailed => [GenerationChanges(true)]
  }

  // Reconnecting does not reach the checkpoint receiver.
  ghost function CheckpointEvents(events: seq<HopEvent>): seq<Event<CheckpointMeta>> {
    if events == [] then []
    else
      CheckpointEvents(events[..|events| - 1]) +
      match events[|events| - 1]
      case ReliableChunk(_, _, _) => []
      case CheckpointChunk(id, c, at) => [Arrives(id, c, at)]
      case PeerReconnecting => [GenerationChanges(false)]
      case FrameStreamFailed => [GenerationChanges(true)]
  }

  lemma {:induction false} ReliableAlwaysCleared(events: seq<HopEvent>)
    ensures AlwaysCleared(ReliableEvents(events))
  {
    if events != [] { ReliableAlwaysCleared(events[..|events| - 1]); }
  }

  // Routed reliable hops never combine chunks of two generations.
  lemma ReliableHopsStayApart(events: seq<HopEvent>, k: nat)
    requires k < |Run(RELIABLE, HOP_LIMITS, ReliableEvents(events)).done|
    ensures var d := Run(RELIABLE, HOP_LIMITS, ReliableEvents(events)).done[k];
            d.first == d.last
  {
    ReliableAlwaysCleared(events);
    SeparatedHolds(RELIABLE, HOP_LIMITS, ReliableEvents(events));
  }

  // A checkpoint of 4,001 bytes: chunk 0, a reconnect, chunk 1.
  ghost function Reconnected(bytes: seq<Byte>): seq<HopEvent>
    requires |bytes| == 4001
  {
    var meta := CHECKPOINT_META;
    [CheckpointChunk(7, ChunkAt(CHECKPOINT, meta, bytes, 0), 0), PeerReconnecting,
     CheckpointChunk(7, ChunkAt(CHECKPOINT, meta, bytes, 1), 0)]
  }

  lemma ReconnectedEvents(bytes: seq<Byte>)
    requires |bytes| == 4001
    ensures var meta := CHECKPOINT_META;
            CheckpointEvents(Reconnected(bytes)) ==
              [Arrives(7, ChunkAt(CHECKPOINT, meta, bytes, 0), 0), GenerationChanges(false),
               Arrives(7, ChunkAt(CHECKPOINT, meta, bytes, 1), 0)]
  {
    var events := Reconnected(bytes);
    assert events[..2][..1][..0] == [];
    assert CheckpointEvents(events[..2][..1]) == [Arrives(7, events[0].checkpoint, 0)];
    assert CheckpointEvents(events[..2]) == [Arrives(7, events[0].checkpoint, 0), GenerationChanges(false)];
  }

  const CHECKPOINT_META := CheckpointMeta(1, 1, false)

  const NOTHING_YET: History<CheckpointMeta> := History(map[], 0, map[], [], [])

  ghost function AfterChunk0(bytes: seq<Byte>): History<CheckpointMeta>
    requires |bytes| == 4001
  {
    Step(CHECKPOINT, Unlimited, NOTHING_YET, Arrives(7, ChunkAt(CHECKPOINT, CHECKPOINT_META, bytes, 0), 0))
  }

  lemma Chunk0IsHeld(bytes: seq<Byte>)
    requires |bytes| == 4001
    ensures var h := AfterChunk0(bytes);
            && Holds(CHECKPOINT, h.table, 7, Whole(CHECKPOINT_META, bytes), {0})
            && h.table[7].updated == 0 && h.done == [] && h.generation == 0 && h.born == map[7 := 0]
  {
    var whole := Whole(CHECKPOINT_META, bytes);
    assert Indices(CHECKPOINT, whole) == {0, 1};
    OwnArrival(CHECKPOINT, Unlimited, NOTHING_YET, 7, whole, {},
               Arrives(7, ChunkAt(CHECKPOINT, CHECKPOINT_META, bytes, 0), 0));
  }

  // Checkpoint hops do: the one completed checkpoint took its first chunk from before the
  // reconnect. Its bytes are the sender's all the same.
  lemma CheckpointHopsMix(bytes: seq<Byte>)
    requires |bytes| == 4001
    ensures Run(CHECKPOINT, Unlimited, CheckpointEvents(Reconnected(bytes))).done
         == [Completion(0, 1, 7, Whole(CHECKPOINT_META, bytes))]
  {
    ReconnectedEvents(bytes);
    var events := CheckpointEvents(Reconnected(bytes));
    assert events[..2][..1][..0] == [];
    assert Run(CHECKPOINT, Unlimited, events[..2][..1]) == AfterChunk0(bytes);
    Chunk0IsHeld(bytes);
    ChunkAfterReconnect(bytes, Run(CHECKPOINT, Unlimited, events[..2]));
  }

  lemma ChunkAfterReconnect(bytes: seq<Byte>, h: History<CheckpointMeta>)
    requires |bytes| == 4001
    requires Holds(CHECKPOINT, h.table, 7, Whole(CHECKPOINT_META, bytes), {0})
    requires h.table[7].updated == 0 && h.done == [] && h.generation == 1 && h.born == map[7 := 0]
    ensures Step(CHECKPOINT, Unlimited, h, Arrives(7, ChunkAt(CHECKPOINT, CHECKPOINT_META, bytes, 1), 0)).done
         == [Completion(0, 1, 7, Whole(CHECKPOINT_META, bytes))]
  {
    var whole := Whole(CHECKPOINT_META, bytes);
    assert Indices(CHECKPOINT, whole) == {0, 1};
    OwnArrival(CHECKPOINT, Unlimited, h, 7, whole, {0}, Arrives(7, ChunkAt(CHECKPOINT, CHECKPOINT_META, bytes, 1), 0));
  }
}
