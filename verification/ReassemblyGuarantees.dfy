/**
 What a reassembler guarantees: completed bytes are the sender's bytes, an operation
 completes exactly when its last missing piece arrives in whatever order, and pieces of
 two transport generations are kept apart exactly when the table is cleared in between.
 */
module ReassemblyGuarantees {
  import opened Types
  import opened Chunks
  import opened Reassembly
  import opened ReassemblyRuns

  // ---------- bytes ----------

  // Every completed operation is made of chunks that all arrived under its MessageId.
  lemma CompletedFromItsChunks<M>(rule: Rule, limits: Limits, events: seq<Event<M>>, k: nat, i: nat)
    requires rule.Sound() && k < |Run(rule, limits, events).done|
    requires i < CountFor(rule, |Run(rule, limits, events).done[k].whole.bytes|)
    ensures var h := Run(rule, limits, events);
            var d := h.done[k];
            Logged(h.log, d.first, d.last, d.id, ChunkAt(rule, d.whole.meta, d.whole.bytes, i))
  {
    InvHolds(rule, limits, events);
  }

  // A MessageId stands for one content, and only its chunks are sent under it.
  ghost predicate Honest<M>(rule: Rule, content: map<nat, Whole<M>>, id: nat, c: Chunk<M>)
    requires rule.Sound()
  {
    && id in content
    && 0 <= c.index < CountFor(rule, |content[id].bytes|)
    && c == ChunkAt(rule, content[id].meta, content[id].bytes, c.index)
  }

  ghost predicate HonestEvents<M>(rule: Rule, content: map<nat, Whole<M>>, events: seq<Event<M>>)
    requires rule.Sound()
  {
    forall j :: 0 <= j < |events| && events[j].Arrives? ==> Honest(rule, content, events[j].id, events[j].chunk)
  }

  lemma {:induction false} LogIsHonest<M>(rule: Rule, limits: Limits, content: map<nat, Whole<M>>, events: seq<Event<M>>)
    requires rule.Sound() && HonestEvents(rule, content, events)
    ensures forall a :: a in Run(rule, limits, events).log ==> Honest(rule, content, a.id, a.chunk)
  {
    if events != [] {
      LogIsHonest(rule, limits, content, events[..|events| - 1]);
      assert events[|events| - 1].Arrives? ==>
          Honest(rule, content, events[|events| - 1].id, events[|events| - 1].chunk);
    }
  }

  // Whatever is lost, repeated, reordered, interleaved or expired, and whatever the
  // generations do: a completed operation carries exactly the sender's bytes and metadata.
  lemma CompletedIsSenders<M>(rule: Rule, limits: Limits, content: map<nat, Whole<M>>, events: seq<Event<M>>, k: nat)
    requires rule.Sound() && HonestEvents(rule, content, events) && k < |Run(rule, limits, events).done|
    ensures var d := Run(rule, limits, events).done[k];
            d.id in content && d.whole == content[d.id]
  {
    var h := Run(rule, limits, events);
    var d := h.done[k];
    InvHolds(rule, limits, events);
    LogIsHonest(rule, limits, content, events);
    CountPositive(rule, |d.whole.bytes|);
    assert Genuine(rule, h.log, d);
    forall i: nat | i < CountFor(rule, |d.whole.bytes|)
      ensures Honest(rule, content, d.id, ChunkAt(rule, d.whole.meta, d.whole.bytes, i))
    {
      assert Logged(h.log, d.first, d.last, d.id, ChunkAt(rule, d.whole.meta, d.whole.bytes, i));
    }
    assert Honest(rule, content, d.id, ChunkAt(rule, d.whole.meta, d.whole.bytes, 0));
    ChunksDetermine(rule, d.whole.meta, d.whole.bytes, content[d.id].meta, content[d.id].bytes);
  }

  // ---------- completion ----------

  ghost function RunFrom<M>(rule: Rule, limits: Limits, h: History<M>, events: seq<Event<M>>): History<M>
    requires rule.Sound()
  {
    if events == [] then h
    else Step(rule, limits, RunFrom(rule, limits, h, events[..|events| - 1]), events[|events| - 1])
  }

  // The table holds exactly the pieces `got` of an operation.
  ghost predicate Holds<M>(rule: Rule, table: map<nat, Partial<M>>, id: nat, whole: Whole<M>, got: set<nat>)
    requires rule.Sound()
  {
    if got == {} then id !in table
    else
      && id in table
      && table[id].meta == whole.meta
      && table[id].total == |whole.bytes|
      && |table[id].pieces| == CountFor(rule, |whole.bytes|)
      && forall i: nat :: i < |table[id].pieces| ==>
           table[id].pieces[i] == if i in got then Some(Piece(rule, whole.bytes, i)) else None
  }

  // All indices of an operation.
  ghost function Indices<M>(rule: Rule, whole: Whole<M>): set<nat>
    requires rule.Sound()
  {
    UpTo(CountFor(rule, |whole.bytes|))
  }

  ghost function UpTo(n: nat): (s: set<nat>)
    ensures forall i: nat :: i in s <==> i < n
  {
    if n == 0 then {} else UpTo(n - 1) + {n - 1}
  }

  // An arrival that leaves the operation alone or brings one of its pieces: the
  // operation is not inactive for more than ten seconds, and the limits admit its start.
  ghost predicate Undisturbed<M>(rule: Rule, limits: Limits, h: History<M>, id: nat, whole: Whole<M>, e: Event<M>)
    requires rule.Sound()
  {
    && e.Arrives?
    && (id in h.table ==> h.table[id].updated >= e.now - INACTIVITY_MS)
    && (e.id == id ==>
          && 0 <= e.chunk.index < CountFor(rule, |whole.bytes|)
          && e.chunk == ChunkAt(rule, whole.meta, whole.bytes, e.chunk.index)
          && (id !in h.table ==> Admits(limits, Live(h.table, e.now), |whole.bytes|)))
  }

  ghost predicate UndisturbedRun<M>(rule: Rule, limits: Limits, h: History<M>, id: nat, whole: Whole<M>, events: seq<Event<M>>)
    requires rule.Sound()
  {
    forall n :: 0 <= n < |events| ==> Undisturbed(rule, limits, RunFrom(rule, limits, h, events[..n]), id, whole, events[n])
  }

  // The indices that arrived for the operation, whatever else did.
  ghost function Got<M>(events: seq<Event<M>>, id: nat): set<nat> {
    set j: nat | j < |events| && events[j].Arrives? && events[j].id == id && events[j].chunk.index >= 0
      :: events[j].chunk.index as nat
  }

  ghost function CompletionsOf<M>(done: seq<Completion<M>>, id: nat): seq<Whole<M>> {
    if done == [] then []
    else CompletionsOf(done[..|done| - 1], id) + (if done[|done| - 1].id == id then [done[|done| - 1].whole] else [])
  }

  lemma OwnArrival<M>(rule: Rule, limits: Limits, h: History<M>, id: nat, whole: Whole<M>, got: set<nat>, e: Event<M>)
    requires rule.Sound() && |whole.bytes| <= rule.limit
    requires Undisturbed(rule, limits, h, id, whole, e) && e.id == id
    requires Holds(rule, h.table, id, whole, got) && got < Indices(rule, whole)
    ensures var grown := got + {e.chunk.index as nat};
            var after := Step(rule, limits, h, e);
            if grown == Indices(rule, whole) then
              && id !in after.table
              && after.done == h.done + [Completion(BornAfter(h, id, e.now), h.generation, id, whole)]
            else
              && Holds(rule, after.table, id, whole, grown)
              && after.table[id].updated == e.now
              && after.done == h.done
              && id in after.born && after.born[id] == BornAfter(h, id, e.now)
    ensures Step(rule, limits, h, e).generation == h.generation
  {
    var c := e.chunk;
    var live := Live(h.table, e.now);
    ChunkAtAccepted(rule, whole.meta, whole.bytes, c.index);
    assert Target(limits, live, id, c, e.now).Ok?;
    var p := Target(limits, live, id, c, e.now).value;
    var grown := got + {c.index as nat};
    var q := WithPiece(p, c, e.now);
    assert !Conflicts(p, c);
    forall i: nat | i < |q.pieces|
      ensures q.pieces[i] == if i in grown then Some(Piece(rule, whole.bytes, i)) else None
    {
    }
    AllPieces(rule, whole, grown, q.pieces);
  }

  lemma AllPieces<M>(rule: Rule, whole: Whole<M>, got: set<nat>, pieces: seq<Option<seq<Byte>>>)
    requires rule.Sound() && |pieces| == CountFor(rule, |whole.bytes|) && got <= Indices(rule, whole)
    requires forall i: nat :: i < |pieces| ==>
               pieces[i] == if i in got then Some(Piece(rule, whole.bytes, i)) else None
    ensures Complete(pieces) <==> got == Indices(rule, whole)
    ensures Complete(pieces) ==> Concat(Values(pieces)) == whole.bytes
  {
    if Complete(pieces) {
      forall i: nat | i < |pieces| ensures i in got { assert pieces[i].Some?; }
      assert Values(pieces) == Pieces(rule, whole.bytes, |pieces|);
      PiecesTile(rule, whole.bytes);
    }
    if got == Indices(rule, whole) {
      forall i: nat | i < |pieces| ensures pieces[i].Some? { assert i in got; }
    }
  }

  lemma OtherArrival<M>(rule: Rule, limits: Limits, h: History<M>, id: nat, whole: Whole<M>, got: set<nat>, e: Event<M>)
    requires rule.Sound() && Undisturbed(rule, limits, h, id, whole, e) && e.id != id
    requires Holds(rule, h.table, id, whole, got)
    ensures var after := Step(rule, limits, h, e);
            && Holds(rule, after.table, id, whole, got)
            && CompletionsOf(after.done, id) == CompletionsOf(h.done, id)
  {
    var after := Step(rule, limits, h, e);
    OtherKeepsPartial(rule, limits, h.table, e.id, e.chunk, e.now, id);
    assert after.table == Receive(rule, limits, h.table, e.id, e.chunk, e.now).1;
    HoldsSame(rule, h.table, after.table, id, whole, got);
    if after.done != h.done {
      assert after.done[..|h.done|] == h.done;
    }
  }

  lemma OtherKeepsPartial<M>(rule: Rule, limits: Limits, table: map<nat, Partial<M>>, other: nat, c: Chunk<M>, now: int, id: nat)
    requires rule.Sound() && other != id && (id in table ==> table[id].updated >= now - INACTIVITY_MS)
    ensures var after := Receive(rule, limits, table, other, c, now).1;
            (id in after <==> id in table) && (id in table ==> after[id] == table[id])
  {
    var live := Live(table, now);
    assert (id in live <==> id in table) && (id in table ==> live[id] == table[id]);
  }

  lemma HoldsSame<M>(rule: Rule, table: map<nat, Partial<M>>, after: map<nat, Partial<M>>, id: nat, whole: Whole<M>, got: set<nat>)
    requires rule.Sound() && Holds(rule, table, id, whole, got)
    requires (id in after <==> id in table) && (id in table ==> after[id] == table[id])
    ensures Holds(rule, after, id, whole, got)
  {
  }

  ghost function GotWith<M>(got: set<nat>, id: nat, e: Event<M>): set<nat> {
    got + if e.Arrives? && e.id == id && e.chunk.index >= 0 then {e.chunk.index as nat} else {}
  }

  // What is known of an operation after the pieces `got`, starting from `done`.
  ghost predicate Progress<M>(rule: Rule, h: History<M>, id: nat, whole: Whole<M>, got: set<nat>, done: seq<Completion<M>>)
    requires rule.Sound()
  {
    && got <= Indices(rule, whole)
    && if got == Indices(rule, whole) then
         CompletionsOf(h.done, id) == CompletionsOf(done, id) + [whole] && id !in h.table
       else
         CompletionsOf(h.done, id) == CompletionsOf(done, id) && Holds(rule, h.table, id, whole, got)
  }

  lemma ProgressStep<M>(rule: Rule, limits: Limits, h: History<M>, id: nat, whole: Whole<M>, got: set<nat>, e: Event<M>,
                        done: seq<Completion<M>>)
    requires rule.Sound() && |whole.bytes| <= rule.limit
    requires Undisturbed(rule, limits, h, id, whole, e)
    requires Progress(rule, h, id, whole, got, done) && got != Indices(rule, whole)
    ensures Progress(rule, Step(rule, limits, h, e), id, whole, GotWith(got, id, e), done)
  {
    if e.id == id {
      OwnProgress(rule, limits, h, id, whole, got, e, done);
    } else {
      OtherArrival(rule, limits, h, id, whole, got, e);
      assert GotWith(got, id, e) == got;
    }
  }

  lemma OwnProgress<M>(rule: Rule, limits: Limits, h: History<M>, id: nat, whole: Whole<M>, got: set<nat>, e: Event<M>,
                       done: seq<Completion<M>>)
    requires rule.Sound() && |whole.bytes| <= rule.limit
    requires Undisturbed(rule, limits, h, id, whole, e) && e.id == id
    requires Holds(rule, h.table, id, whole, got) && got < Indices(rule, whole)
    requires CompletionsOf(h.done, id) == CompletionsOf(done, id)
    ensures Progress(rule, Step(rule, limits, h, e), id, whole, GotWith(got, id, e), done)
  {
    OwnArrival(rule, limits, h, id, whole, got, e);
    var after := Step(rule, limits, h, e).done;
    if after != h.done { assert after[..|h.done|] == h.done; }
  }

  // Pieces may come in any order, any number of times and mixed with any other traffic:
  // as long as some piece is missing the operation does not complete, and with the last
  // missing one it completes once, with its own bytes.
  lemma {:induction false} CompletesWithTheLastPiece<M>(rule: Rule, limits: Limits, h: History<M>, id: nat, whole: Whole<M>,
                                                        events: seq<Event<M>>)
    requires rule.Sound() && |whole.bytes| <= rule.limit && id !in h.table
    requires UndisturbedRun(rule, limits, h, id, whole, events)
    requires forall n :: 0 <= n < |events| ==> Got(events[..n], id) != Indices(rule, whole)
    ensures Progress(rule, RunFrom(rule, limits, h, events), id, whole, Got(events, id), h.done)
  {
    if events == [] {
      CountPositive(rule, |whole.bytes|);
      assert 0 in Indices(rule, whole);
    } else {
      var n := |events| - 1;
      var before, e := events[..n], events[n];
      forall m | 0 <= m < n
        ensures Undisturbed(rule, limits, RunFrom(rule, limits, h, before[..m]), id, whole, before[m])
        ensures Got(before[..m], id) != Indices(rule, whole)
      {
        assert before[..m] == events[..m];
      }
      CompletesWithTheLastPiece(rule, limits, h, id, whole, before);
      GotStep(events, id);
      ProgressStep(rule, limits, RunFrom(rule, limits, h, before), id, whole, Got(before, id), e, h.done);
    }
  }

  lemma GotStep<M>(events: seq<Event<M>>, id: nat)
    requires events != []
    ensures Got(events, id) == GotWith(Got(events[..|events| - 1], id), id, events[|events| - 1])
  {
    var n := |events| - 1;
    forall i: nat ensures i in Got(events, id) <==> i in Got(events[..n], id) || (events[n].Arrives? && events[n].id == id && events[n].chunk.index == i) {
      if i in Got(events, id) {
        var j: nat :| j < |events| && events[j].Arrives? && events[j].id == id && events[j].chunk.index == i;
        if j < n { assert events[..n][j] == events[j]; }
      }
      if i in Got(events[..n], id) {
        var j: nat :| j < n && events[..n][j].Arrives? && events[..n][j].id == id && events[..n][j].chunk.index == i;
        assert events[j] == events[..n][j];
      }
      if events[n].Arrives? && events[n].id == id && events[n].chunk.index == i { assert i in Got(events, id); }
    }
  }
}
