/**
 Runs of one checkpoint queue: any interleaving of publications and finished operations
 refines "send the latest value".
 */
module CheckpointQueueRuns {
  import opened Types
  import opened CheckpointQueue

  datatype Event = Published(v: Value) | Finished

  // The queue with its history: accepted values and transmitted operations, in order.
  datatype State = State(queue: Queue, accepted: seq<Value>, sent: seq<Transfer>)

  function Step(st: State, e: Event): State {
    var (r, queue) := if e.Published? then Publish(st.queue, e.v) else Complete(st.queue);
    State(queue,
          if e.Published? && r.Ok? then st.accepted + [e.v] else st.accepted,
          if r.Ok? && r.value.Some? then st.sent + [r.value.value] else st.sent)
  }

  function Run(events: seq<Event>): State {
    if events == [] then State(EMPTY, [], [])
    else Step(Run(events[..|events| - 1]), events[|events| - 1])
  }

  // `a` can be obtained from `b` by leaving values out.
  predicate Sub(a: seq<Value>, b: seq<Value>)
    decreases |b|
  {
    a == [] ||
    (b != [] && if a[|a| - 1] == b[|b| - 1] then Sub(a[..|a| - 1], b[..|b| - 1]) else Sub(a, b[..|b| - 1]))
  }

  function Values(sent: seq<Transfer>): (vs: seq<Value>)
    ensures |vs| == |sent|
  {
    seq(|sent|, i requires 0 <= i < |sent| => sent[i].value)
  }

  function Waiting(q: Queue): seq<Value> { if q.pending.Some? then [q.pending.value] else [] }

  lemma SubAppend(a: seq<Value>, b: seq<Value>, x: Value)
    requires Sub(a, b)
    ensures Sub(a + [x], b + [x])
  {
    assert (a + [x])[..|a|] == a && (b + [x])[..|b|] == b;
  }

  lemma {:induction false} SubShrink(a: seq<Value>, b: seq<Value>)
    requires a != [] && Sub(a, b)
    ensures Sub(a[..|a| - 1], b)
    decreases |b|, 0
  {
    var shorter, front := a[..|a| - 1], b[..|b| - 1];
    assert b == front + [b[|b| - 1]];
    if a[|a| - 1] != b[|b| - 1] { SubShrink(a, front); }
    SubGrow(shorter, front, b[|b| - 1]);
  }

  lemma {:induction false} SubGrow(a: seq<Value>, b: seq<Value>, x: Value)
    requires Sub(a, b)
    ensures Sub(a, b + [x])
    decreases |b|, 1
  {
    assert (b + [x])[..|b|] == b;
    if a != [] && a[|a| - 1] == x { SubShrink(a, b); }
  }

  // What went out, then what waits, is the accepted values with some left out; it never
  // leaves out the newest.
  ghost predicate LatestKept(st: State) {
    && Sub(Values(st.sent) + Waiting(st.queue), st.accepted)
    && (st.accepted != [] && !st.queue.exhausted ==>
          Values(st.sent) + Waiting(st.queue) != []
          && (Values(st.sent) + Waiting(st.queue))[|Values(st.sent) + Waiting(st.queue)| - 1] == st.accepted[|st.accepted| - 1])
  }

  ghost predicate Sequenced(st: State) {
    && (forall i :: 0 <= i < |st.sent| ==> st.sent[i].sequence == i + 1)
    && (st.queue.exhausted <==> |st.sent| == MAX_SEQUENCE)
    && (!st.queue.exhausted ==> st.queue.next == |st.sent| + 1)
    && (st.queue.inFlight.Some? ==> st.sent != [] && st.queue.inFlight.value == st.sent[|st.sent| - 1])
    && (st.queue.pending.Some? ==> st.queue.inFlight.Some?)
    && |st.sent| <= MAX_SEQUENCE
  }

  ghost predicate Inv(st: State) { Sequenced(st) && LatestKept(st) }

  lemma PublishKeeps(st: State, v: Value)
    requires Inv(st)
    ensures Inv(Step(st, Published(v)))
  {
    var after := Step(st, Published(v));
    if after != st {
      OutIsSub(st);
      SubAppend(Values(st.sent), st.accepted, v);
      if st.queue.inFlight.Some? {
        assert Values(after.sent) + Waiting(after.queue) == Values(st.sent) + [v];
      } else {
        assert after.sent == st.sent + [Transfer(st.queue.next, v)];
        assert Values(after.sent) + Waiting(after.queue) == Values(st.sent) + [v];
      }
    }
  }

  lemma OutIsSub(st: State)
    requires LatestKept(st)
    ensures Sub(Values(st.sent), st.accepted)
  {
    var all := Values(st.sent) + Waiting(st.queue);
    if st.queue.pending.Some? {
      assert all[..|all| - 1] == Values(st.sent);
      SubShrink(all, st.accepted);
    } else {
      assert all == Values(st.sent);
    }
  }

  lemma CompleteKeeps(st: State)
    requires Inv(st)
    ensures Inv(Step(st, Finished))
  {
    var after := Step(st, Finished);
    var out, waiting := Values(st.sent), Waiting(st.queue);
    if st.queue.pending.Some? {
      if st.queue.exhausted {
        assert (out + waiting)[..|out + waiting| - 1] == out;
        SubShrink(out + waiting, st.accepted);
        assert Values(after.sent) + Waiting(after.queue) == out;
      } else {
        assert Values(after.sent) + Waiting(after.queue) == out + waiting;
      }
    } else {
      assert Values(after.sent) + Waiting(after.queue) == out + waiting;
    }
  }

  lemma {:induction false} RunInv(events: seq<Event>)
    ensures Inv(Run(events))
  {
    if events == [] {
    } else {
      RunInv(events[..|events| - 1]);
      if events[|events| - 1].Published? {
        PublishKeeps(Run(events[..|events| - 1]), events[|events| - 1].v);
      } else {
        CompleteKeeps(Run(events[..|events| - 1]));
      }
    }
  }

  // In every run: the operations carry the sequence numbers 1, 2, 3, ... without a gap;
  // their values are the accepted values with some left out, in order; at most one is in
  // flight, and it is the last one sent; and until the sequence space is used up the
  // newest accepted value is in flight, pending, or the last one sent.
  lemma RefinesLatestValue(events: seq<Event>)
    ensures var st := Run(events);
            && (forall i :: 0 <= i < |st.sent| ==> st.sent[i].sequence == i + 1)
            && Sub(Values(st.sent), st.accepted)
            && (st.queue.inFlight.Some? ==> st.sent != [] && st.queue.inFlight.value == st.sent[|st.sent| - 1])
            && (st.accepted != [] && |st.sent| < MAX_SEQUENCE ==>
                  var newest := st.accepted[|st.accepted| - 1];
                  st.queue.pending == Some(newest)
                  || (st.queue.pending == None && st.sent != [] && st.sent[|st.sent| - 1].value == newest))
  {
    RunInv(events);
    var st := Run(events);
    OutIsSub(st);
    assert st.queue.pending.None? ==> Values(st.sent) + Waiting(st.queue) == Values(st.sent);
  }

  // A value published to an idle queue goes out at once and one published to a busy queue
  // replaces the waiting one; an operation that ends sends the waiting value or frees the
  // slot; and a value waits only behind an operation in flight.
  ghost predicate Moves(st: State, published: State, finished: State, v: Value) {
    var (q, next) := (st.queue, Transfer(|st.sent| + 1, v));
    && (q.pending.Some? ==> q.inFlight.Some?)
    && (|v.bytes| > MAX_CHECKPOINT_BYTES ==> published == st)
    && (|v.bytes| <= MAX_CHECKPOINT_BYTES && q.inFlight.None? ==>
          published.sent == st.sent + [next] && published.queue.inFlight == Some(next) && published.queue.pending == None)
    && (|v.bytes| <= MAX_CHECKPOINT_BYTES && q.inFlight.Some? ==>
          published.sent == st.sent && published.queue.inFlight == q.inFlight && published.queue.pending == Some(v))
    && finished.queue.pending == None
    && (q.pending == None ==> finished.sent == st.sent && finished.queue.inFlight == None)
    && (q.pending == Some(v) ==> finished.sent == st.sent + [next] && finished.queue.inFlight == Some(next))
  }

  lemma StepMoves(st: State, v: Value)
    requires Sequenced(st) && |st.sent| < MAX_SEQUENCE
    ensures Moves(st, Step(st, Published(v)), Step(st, Finished), v)
  {
  }

  // In every run, until the sequence space is used up.
  lemma QueueMoves(events: seq<Event>, v: Value)
    requires |Run(events).sent| < MAX_SEQUENCE
    ensures Moves(Run(events), Run(events + [Published(v)]), Run(events + [Finished]), v)
  {
    RunInv(events);
    StepMoves(Run(events), v);
    RunSnoc(events, Published(v));
    RunSnoc(events, Finished);
  }

  lemma RunSnoc(events: seq<Event>, e: Event)
    ensures Run(events + [e]) == Step(Run(events), e)
  {
    assert (events + [e])[..|events|] == events;
  }

  // What is refused: too large a value, and any transfer once the sequence space is used up.
  lemma QueueRefusals(q: Queue, v: Value)
    ensures Publish(q, v).0 == Err(MessageTooLarge) <==> |v.bytes| > MAX_CHECKPOINT_BYTES
    ensures Publish(q, v).0 == Err(ResourceExhausted) <==> |v.bytes| <= MAX_CHECKPOINT_BYTES && q.inFlight.None? && q.exhausted
    ensures Complete(q).0 == Err(ResourceExhausted) <==> q.pending.Some? && q.exhausted
    ensures Publish(q, v).0.Err? ==> Publish(q, v).1 == q
  {
  }
}
