/**
 The checkpoint receiver as an object: its reassembler, its completed MessageIds and the
 calls that are suspended on an application validation.
 */
module CheckpointReceiving {
  import opened Types
  import opened Chunks
  import opened Reassembly
  import opened CheckpointReceive
  import RR = ReassemblyRuns
  import CR = ChunkReassembler

  datatype Outcome = Incomplete | Suspended | CommittedNow(entry: Entry) | AgainComplete(entry: Entry) | Refused

  // What a call that asks for a commit, or finds a duplicate, reports.
  predicate Reports(o: Outcome, before: Receiver, after: Receiver) {
    match o
    case Incomplete => after.committed == before.committed && after.acknowledged == before.acknowledged
    case Refused => after.acknowledged == before.acknowledged
    case Suspended => after.committed == before.committed && |after.waiting| == |before.waiting| + 1
    case CommittedNow(e) => after.committed == before.committed + [e] && after.acknowledged == before.acknowledged + [e]
    case AgainComplete(e) => after.committed == before.committed && after.acknowledged == before.acknowledged + [e]
  }

  class CheckpointReceiver {
    const capacity: nat
    const reassembler: CR.Reassembler<CheckpointMeta>
    var completed: seq<Entry>
    var waiting: seq<Entry>
    ghost var state: Receiver

    ghost predicate Valid()
      reads this, reassembler
    {
      && reassembler.Valid()
      && reassembler.rule == CHECKPOINT && reassembler.limits == Unlimited
      && state.history.table == reassembler.messages
      && state.completed == completed && state.waiting == waiting
    }

    constructor (capacity: nat)
      ensures Valid() && fresh(reassembler) && state == START && this.capacity == capacity
    {
      this.capacity := capacity;
      reassembler := new CR.Reassembler<CheckpointMeta>(CHECKPOINT, Unlimited);
      completed, waiting, state := [], [], START;
    }

    // The synchronous tail of a call: commit, record, acknowledge.
    method CommitEntry(e: Entry, term: nat) returns (o: Outcome)
      requires Valid()
      modifies this
      ensures Valid() && state == Commit(old(state), capacity, e, term) && Reports(o, old(state), state)
    {
      state := Commit(state, capacity, e, term);
      if e.whole.meta.term < term { return Refused; }
      var known := Lookup(completed, e.id);
      if known.Some? {
        return if known.value == e then CommittedNow(e) else Refused;
      }
      completed := completed + [e];
      if |completed| > capacity { completed := completed[1..]; }
      o := CommittedNow(e);
    }

    method Add(id: nat, c: Chunk<CheckpointMeta>, now: int, term: nat) returns (o: Outcome)
      requires Valid()
      modifies this, reassembler
      ensures Valid() && state == Step(capacity, old(state), Arrives(id, c, now, term)) && Reports(o, old(state), state)
    {
      ghost var before := state;
      var r := reassembler.Add(id, c, now);
      state := state.(history := RR.Step(CHECKPOINT, Unlimited, state.history, RR.Arrives(id, c, now)));
      if r.Err? { return Refused; }
      if r.value.None? { return Incomplete; }
      var e := Entry(id, r.value.value);
      var known := Lookup(completed, e.id);
      if known.Some? && known.value != e { return Refused; }
      if known.Some? {
        state := state.(acknowledged := state.acknowledged + [e]);
        return AgainComplete(e);
      }
      if e.whole.meta.validate {
        waiting := waiting + [e];
        state := state.(waiting := waiting);
        return Suspended;
      }
      o := CommitEntry(e, term);
    }

    // The oldest awaited validation returns its verdict.
    method Decide(verdict: bool, term: nat) returns (o: Outcome)
      requires Valid() && waiting != []
      modifies this
      ensures Valid() && state == Step(capacity, old(state), Decided(verdict, term)) && Reports(o, old(state), state)
    {
      var e := waiting[0];
      waiting := waiting[1..];
      state := state.(waiting := waiting);
      if !verdict { return Incomplete; }
      o := CommitEntry(e, term);
    }

    method OnTransportGenerationLost()
      requires Valid()
      modifies this, reassembler
      ensures Valid() && state == Step(capacity, old(state), GenerationChanges(true))
      ensures completed == old(completed) && waiting == old(waiting)
    {
      reassembler.Clear();
      state := Step(capacity, state, GenerationChanges(true));
    }
  }
}
