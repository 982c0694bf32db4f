/**
 Retention of ACK-required operations at the sender: deadlines, whole-operation
 retransmission, transport loss and RESUME. An operation is kept under its MessageId with
 its content until it is acknowledged, cancelled or out of retries.
 */
module AckRetention {
  import opened Types

  const ACK_TIMEOUT_MS: int := 3000
  const MAX_RETRANSMISSIONS: nat := 2
  const RETENTION_CAPACITY: nat := 1024

  datatype AckState = PendingSubmission | AwaitingAck | Acknowledged | Failed

  // The operation, and the deadline of the attempt that waits for its ACK.
  datatype Entry = Entry(content: seq<Byte>, state: AckState, retransmissions: nat, deadline: Option<int>)

  datatype TimeoutResult = Ignored | RetransmitWhole | TerminalTimeout

  function New(content: seq<Byte>): Entry { Entry(content, PendingSubmission, 0, None) }

  // The last frame of an attempt was handed to the platform.
  function Submit(e: Entry, now: int): Entry {
    var state := if e.state == PendingSubmission then AwaitingAck else e.state;
    if state == AwaitingAck then e.(state := state, deadline := Some(now + ACK_TIMEOUT_MS)) else e.(state := state)
  }

  function Pause(e: Entry): Entry {
    e.(state := if e.state == AwaitingAck then PendingSubmission else e.state, deadline := None)
  }

  // A new attempt, or the end of the retry budget.
  function Retry(e: Entry): (TimeoutResult, Entry) {
    if e.retransmissions == MAX_RETRANSMISSIONS then (TerminalTimeout, e.(state := AckState.Failed, deadline := None))
    else (RetransmitWhole,
          e.(retransmissions := e.retransmissions + 1, state := PendingSubmission, deadline := None))
  }

  function Expire(e: Entry, now: int): (TimeoutResult, Entry) {
    if e.deadline.None? || now < e.deadline.value then (Ignored, e)
    else if e.state != AwaitingAck then (Ignored, e.(deadline := None))
    else Retry(e)
  }

  function Resume(e: Entry): (TimeoutResult, Entry) {
    if e.state == Acknowledged || e.state == AckState.Failed then (Ignored, e.(deadline := None)) else Retry(e)
  }

  // ---------- the set ----------

  function RetainIn(table: map<nat, Entry>, capacity: nat, id: nat, content: seq<Byte>): (Result<Entry>, map<nat, Entry>) {
    if id in table then (Err(MessageIdCollision), table)
    else if |table| >= capacity then (Err(ResourceExhausted), table)
    else (Ok(New(content)), table[id := New(content)])
  }

  function Settled(table: map<nat, Entry>, id: nat, r: TimeoutResult, e: Entry): map<nat, Entry> {
    if r == TerminalTimeout then table - {id} else table[id := e]
  }

  function TimerIn(table: map<nat, Entry>, id: nat, now: int): (TimeoutResult, map<nat, Entry>) {
    if id !in table then (Ignored, table)
    else
      var (r, e) := Expire(table[id], now);
      (r, Settled(table, id, r, e))
  }

  function ResumeIn(table: map<nat, Entry>, id: nat): (TimeoutResult, map<nat, Entry>) {
    if id !in table then (Ignored, table)
    else
      var (r, e) := Resume(table[id]);
      (r, Settled(table, id, r, e))
  }

  function Due(table: map<nat, Entry>, now: int): set<nat> {
    set id | id in table && table[id].deadline.Some? && now >= table[id].deadline.value
  }

  function PausedAll(table: map<nat, Entry>): map<nat, Entry> {
    map id | id in table :: Pause(table[id])
  }

  // While there is no transport no deadline runs and no ACK is awaited; what is retained
  // stays.
  lemma PausedStops(table: map<nat, Entry>, id: nat)
    requires id in table
    ensures id in PausedAll(table) && PausedAll(table)[id].deadline.None? && PausedAll(table)[id].state != AwaitingAck
    ensures PausedAll(table)[id].content == table[id].content && PausedAll(table)[id].retransmissions == table[id].retransmissions
  {
  }

  // After RESUME: what is sent again, and the table without what has no retry left.
  function Ready(table: map<nat, Entry>): set<nat> {
    set id | id in table && Resume(table[id]).0 == RetransmitWhole
  }

  function ResumedAll(table: map<nat, Entry>): map<nat, Entry> {
    map id | id in table && Resume(table[id]).0 != TerminalTimeout :: Resume(table[id]).1
  }

  // The table while the operations in `rest` are still to be visited.
  function ResumedExcept(table: map<nat, Entry>, rest: set<nat>): map<nat, Entry> {
    map id | id in table && (id in rest || Resume(table[id]).0 != TerminalTimeout)
      :: if id in rest then table[id] else Resume(table[id]).1
  }

  lemma ResumedOneMore(table: map<nat, Entry>, rest: set<nat>, id: nat)
    requires id in rest && id in table
    ensures ResumeIn(ResumedExcept(table, rest), id) == (Resume(table[id]).0, ResumedExcept(table, rest - {id}))
  {
    assert ResumeIn(ResumedExcept(table, rest), id).1 == ResumedExcept(table, rest - {id});
  }

  // ---------- the object ----------

  class AckRetentionSet {
    const capacity: nat
    var entries: map<nat, Entry>

    constructor (capacity: nat)
      ensures entries == map[] && this.capacity == capacity
    {
      this.capacity, entries := capacity, map[];
    }

    method Retain(id: nat, content: seq<Byte>) returns (r: Result<Entry>)
      modifies this
      ensures (r, entries) == RetainIn(old(entries), capacity, id, content)
    {
      if id in entries { return Err(MessageIdCollision); }
      if |entries| >= capacity { return Err(ResourceExhausted); }
      entries := entries[id := New(content)];
      r := Ok(entries[id]);
    }

    method FinalFrameSubmitted(id: nat, now: int)
      modifies this
      ensures entries == if id in old(entries) then old(entries)[id := Submit(old(entries)[id], now)] else old(entries)
    {
      if id !in entries { return; }
      var e := entries[id];
      if e.state == PendingSubmission { e := e.(state := AwaitingAck); }
      if e.state == AwaitingAck { e := e.(deadline := Some(now + ACK_TIMEOUT_MS)); }
      entries := entries[id := e];
    }

    method Acknowledge(id: nat) returns (known: bool)
      modifies this
      ensures known == (id in old(entries)) && entries == old(entries) - {id}
    {
      known := id in entries;
      entries := entries - {id};
    }

    method Cancel(id: nat) returns (known: bool)
      modifies this
      ensures known == (id in old(entries)) && entries == old(entries) - {id}
    {
      known := id in entries;
      entries := entries - {id};
    }

    method OnTimer(id: nat, now: int) returns (r: TimeoutResult)
      modifies this
      ensures (r, entries) == TimerIn(old(entries), id, now)
    {
      if id !in entries { return Ignored; }
      var e := entries[id];
      if e.deadline.None? || now < e.deadline.value {
        assert entries[id := e] == entries;
        return Ignored;
      }
      e := e.(deadline := None);
      r := Ignored;
      if e.state == AwaitingAck {
        if e.retransmissions == MAX_RETRANSMISSIONS {
          entries := entries - {id};
          return TerminalTimeout;
        }
        e := e.(retransmissions := e.retransmissions + 1, state := PendingSubmission);
        r := RetransmitWhole;
      }
      entries := entries[id := e];
    }

    method DueMessageIds(now: int) returns (due: set<nat>)
      ensures due == Due(entries, now)
    {
      var rest := entries.Keys;
      due := {};
      while rest != {}
        invariant rest <= entries.Keys
        invariant due == set id | id in entries && id !in rest && id in Due(entries, now)
        decreases |rest|
      {
        var id :| id in rest;
        if entries[id].deadline.Some? && now >= entries[id].deadline.value { due := due + {id}; }
        rest := rest - {id};
      }
    }

    method TransportLost()
      modifies this
      ensures entries == PausedAll(old(entries))
    {
      var rest := entries.Keys;
      while rest != {}
        invariant rest <= entries.Keys == old(entries).Keys
        invariant forall id :: id in entries ==>
                    entries[id] == if id in rest then old(entries)[id] else Pause(old(entries)[id])
        decreases |rest|
      {
        var id :| id in rest;
        var e := entries[id];
        if e.state == AwaitingAck { e := e.(state := PendingSubmission); }
        entries := entries[id := e.(deadline := None)];
        rest := rest - {id};
      }
    }

    // One retained operation after RESUME; operation-specific encoders call this alone.
    method RetransmitOneAfterResume(id: nat) returns (r: TimeoutResult)
      modifies this
      ensures (r, entries) == ResumeIn(old(entries), id)
    {
      if id !in entries { return Ignored; }
      var e := entries[id].(deadline := None);
      r := Ignored;
      if e.state != Acknowledged && e.state != AckState.Failed {
        if e.retransmissions == MAX_RETRANSMISSIONS {
          entries := entries - {id};
          return TerminalTimeout;
        }
        e := e.(retransmissions := e.retransmissions + 1, state := PendingSubmission);
        r := RetransmitWhole;
      }
      entries := entries[id := e];
    }

    method RetransmitAfterResume() returns (ready: set<nat>)
      modifies this
      ensures ready == Ready(old(entries)) && entries == ResumedAll(old(entries))
    {
      ghost var before := entries;
      var rest := entries.Keys;
      ready := {};
      while rest != {}
        invariant rest <= before.Keys
        invariant entries == ResumedExcept(before, rest)
        invariant ready == Ready(before) - rest
        decreases |rest|
      {
        var id :| id in rest;
        ResumedOneMore(before, rest, id);
        var r := RetransmitOneAfterResume(id);
        if r == RetransmitWhole { ready := ready + {id}; }
        rest := rest - {id};
      }
      assert entries == ResumedAll(before);
    }
  }
}
