/**
 CompletedGroupMessageDedup: the bounded cache of completed (source, GroupMessageId)
 pairs that one destination keeps for all its sources together.
 */
module Dedup {
  import opened Types

  const DEDUP_WINDOW: nat := 16384

  // The cache content, oldest entry first. An entry keeps the whole logical content
  // (destination, mode, priority, bytes), so an entry is the accepted operation.
  function Lookup(entries: seq<Operation>, key: MessageKey): (r: Option<Operation>)
    ensures r.Some? <==> exists i :: 0 <= i < |entries| && entries[i].Key() == key
    ensures r.Some? ==> r.value in entries && r.value.Key() == key
  {
    if entries == [] then None
    else if entries[0].Key() == key then Some(entries[0])
    else Lookup(entries[1..], key)
  }

  // Whether an operation is new, and the cache afterwards; different content under a
  // known pair is a collision and changes nothing.
  function Accept(entries: seq<Operation>, capacity: nat, op: Operation): (Result<bool>, seq<Operation>) {
    match Lookup(entries, op.Key())
    case Some(existing) => if existing == op then (Ok(false), entries) else (Err(MessageIdCollision), entries)
    case None =>
      var grown := entries + [op];
      (Ok(true), if |grown| > capacity then grown[1..] else grown)
  }

  class CompletedGroupMessageDedup {
    const capacity: nat
    var entries: seq<Operation>

    ghost predicate Valid()
      reads this
    {
      0 < capacity && |entries| <= capacity
    }

    constructor (capacity: nat)
      requires 0 < capacity
      ensures Valid() && entries == [] && this.capacity == capacity
    {
      this.capacity := capacity;
      entries := [];
    }

    method AcceptOperation(op: Operation) returns (r: Result<bool>)
      requires Valid()
      modifies this
      ensures Valid()
      ensures (r, entries) == Accept(old(entries), capacity, op)
    {
      var existing := Lookup(entries, op.Key());
      if existing.Some? {
        if existing.value != op { return Err(MessageIdCollision); }
        return Ok(false);
      }
      entries := entries + [op];
      if |entries| > capacity { entries := entries[1..]; }
      r := Ok(true);
    }
  }

  // ---------- the cache against the full delivery log ----------

  // The most recent deliveries that fit in the cache.
  function Window(log: seq<Operation>, capacity: nat): seq<Operation> {
    if |log| <= capacity then log else log[|log| - capacity..]
  }

  // Two deliveries of the same pair are always more than a whole window apart.
  ghost predicate Spaced(log: seq<Operation>, capacity: nat) {
    forall i, j :: 0 <= i < j < |log| && log[i].Key() == log[j].Key() ==> j - i > capacity
  }

  lemma AcceptKeepsWindow(log: seq<Operation>, capacity: nat, op: Operation)
    requires 0 < capacity && Spaced(log, capacity)
    ensures var (r, entries) := Accept(Window(log, capacity), capacity, op);
            && (r == Ok(true) ==> entries == Window(log + [op], capacity) && Spaced(log + [op], capacity))
            && (r != Ok(true) ==> entries == Window(log, capacity))
  {
    LookupInWindow(log, capacity, op.Key());
    if Lookup(Window(log, capacity), op.Key()).None? && |log| >= capacity {
      assert (log + [op])[|log| + 1 - capacity..] == (Window(log, capacity) + [op])[1..];
    }
  }

  lemma LookupInWindow(log: seq<Operation>, capacity: nat, key: MessageKey)
    ensures Lookup(Window(log, capacity), key).None?
            <==> OutsideWindow(log, capacity, key)
  {
    var window := Window(log, capacity);
    var skipped := |log| - |window|;
    forall k | 0 <= k < |window| ensures window[k] == log[k + skipped] {}
    forall i | skipped <= i < |log| ensures log[i] == window[i - skipped] {}
  }

  // The log of first deliveries of a stream of complete operations.
  function Deliveries(stream: seq<Operation>, capacity: nat): (seq<Operation>, seq<Operation>) {
    if stream == [] then ([], [])
    else
      var (log, entries) := Deliveries(stream[..|stream| - 1], capacity);
      var (r, after) := Accept(entries, capacity, stream[|stream| - 1]);
      (if r == Ok(true) then log + [stream[|stream| - 1]] else log, after)
  }

  // Whatever arrives, the cache is exactly the last `capacity` deliveries, and a pair is
  // delivered again only after more than `capacity` deliveries.
  lemma {:induction false} CacheIsTheWindow(stream: seq<Operation>, capacity: nat)
    requires 0 < capacity
    ensures var (log, entries) := Deliveries(stream, capacity);
            entries == Window(log, capacity) && Spaced(log, capacity)
  {
    if stream == [] {
    } else {
      CacheIsTheWindow(stream[..|stream| - 1], capacity);
      var (log, entries) := Deliveries(stream[..|stream| - 1], capacity);
      AcceptKeepsWindow(log, capacity, stream[|stream| - 1]);
    }
  }

  // The bound is tight: an operation is delivered iff its pair is not among the last
  // `capacity` deliveries.
  lemma DeliveredIffOutsideWindow(stream: seq<Operation>, capacity: nat, op: Operation)
    requires 0 < capacity
    ensures Accept(Deliveries(stream, capacity).1, capacity, op).0 == Ok(true)
            <==> OutsideWindow(Deliveries(stream, capacity).0, capacity, op.Key())
  {
    CacheIsTheWindow(stream, capacity);
    LookupInWindow(Deliveries(stream, capacity).0, capacity, op.Key());
  }

  lemma EntryOfPair(log: seq<Operation>, capacity: nat, i: nat)
    requires Spaced(log, capacity) && Max(0, |log| - capacity) <= i < |log|
    ensures Lookup(Window(log, capacity), log[i].Key()) == Some(log[i])
  {
    var window, skipped := Window(log, capacity), Max(0, |log| - capacity);
    assert forall k :: 0 <= k < |window| ==> window[k] == log[k + skipped];
    assert window[i - skipped] == log[i];
  }

  // A known pair is never delivered again and changes nothing: the operation it stands for
  // is a duplicate, any other content under it a collision.
  lemma KnownPairDecided(stream: seq<Operation>, capacity: nat, log: seq<Operation>, entries: seq<Operation>, op: Operation, i: nat)
    requires 0 < capacity && Deliveries(stream, capacity) == (log, entries)
    requires Max(0, |log| - capacity) <= i < |log| && log[i].Key() == op.Key()
    ensures Accept(entries, capacity, op) == (if log[i] == op then Ok(false) else Err(MessageIdCollision), entries)
  {
    CacheIsTheWindow(stream, capacity);
    EntryOfPair(log, capacity, i);
  }

  ghost predicate OutsideWindow(log: seq<Operation>, capacity: nat, key: MessageKey) {
    forall i :: Max(0, |log| - capacity) <= i < |log| ==> log[i].Key() != key
  }
}
