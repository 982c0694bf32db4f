/**
 CheckpointReplicationQueue: the latest-value queue of one target peer for one
 coordinator term.
 */
module CheckpointQueue {
  import opened Types

  const MAX_SEQUENCE: nat := 0x7fff_ffff_ffff_ffff

  // A published value. Values of different publications are different values.
  datatype Value = Value(publication: nat, bytes: seq<Byte>)

  datatype Transfer = Transfer(sequence: nat, value: Value)

  datatype Queue = Queue(inFlight: Option<Transfer>, pending: Option<Value>, next: nat, exhausted: bool)

  const EMPTY := Queue(None, None, 1, false)

  function Promote(q: Queue, v: Value): (Result<Option<Transfer>>, Queue) {
    if q.exhausted then (Err(ResourceExhausted), q)
    else
      var t := Transfer(q.next, v);
      (Ok(Some(t)),
       if q.next == MAX_SEQUENCE then q.(inFlight := Some(t), exhausted := true)
       else q.(inFlight := Some(t), next := q.next + 1))
  }

  function Publish(q: Queue, v: Value): (Result<Option<Transfer>>, Queue) {
    if |v.bytes| > MAX_CHECKPOINT_BYTES then (Err(MessageTooLarge), q)
    else if q.inFlight.Some? then (Ok(None), q.(pending := Some(v)))
    else Promote(q, v)
  }

  function Complete(q: Queue): (Result<Option<Transfer>>, Queue) {
    var freed := q.(inFlight := None, pending := None);
    match q.pending
    case None => (Ok(None), freed)
    case Some(v) => Promote(freed, v)
  }

  class CheckpointReplicationQueue {
    var inFlight: Option<Transfer>
    var pending: Option<Value>
    var next: nat
    var exhausted: bool

    ghost function Contents(): Queue
      reads this
    {
      Queue(inFlight, pending, next, exhausted)
    }

    constructor ()
      ensures Contents() == EMPTY
    {
      inFlight, pending, next, exhausted := None, None, 1, false;
    }

    method PublishValue(v: Value) returns (r: Result<Option<Transfer>>)
      modifies this
      ensures (r, Contents()) == Publish(old(Contents()), v)
    {
      if |v.bytes| > MAX_CHECKPOINT_BYTES { return Err(MessageTooLarge); }
      if inFlight.Some? {
        pending := Some(v);
        return Ok(None);
      }
      r := PromoteValue(v);
    }

    method CompleteInFlight() returns (r: Result<Option<Transfer>>)
      modifies this
      ensures (r, Contents()) == Complete(old(Contents()))
    {
      inFlight := None;
      var value := pending;
      pending := None;
      if value.None? { return Ok(None); }
      r := PromoteValue(value.value);
    }

    method PromoteValue(v: Value) returns (r: Result<Option<Transfer>>)
      modifies this
      ensures (r, Contents()) == Promote(old(Contents()), v)
    {
      if exhausted { return Err(ResourceExhausted); }
      var t := Transfer(next, v);
      if next == MAX_SEQUENCE { exhausted := true; } else { next := next + 1; }
      inFlight := Some(t);
      r := Ok(Some(t));
    }
  }
}
