/**
 The coordinator's table of admitted relays (CoordinatorRelayTable). The program keeps
 three structures that must agree: the relays themselves in insertion order, a running
 byte/message reservation per destination, and a key list per (source, destination)
 pair. The specification is one list of relays; the reservations and the pair lists
 are sums and filters over it.
 */
module RelayTable {
  import opened Types

  // An admitted relay: the operation, the MessageId of its destination hop, and the
  // bytes reserved for it.
  datatype Relay = Relay(op: Operation, hop: nat, reserved: nat)
  {
    function Key(): MessageKey { op.Key() }
    predicate To(destination: PeerId) { op.destination == destination }
    predicate Between(source: PeerId, destination: PeerId) {
      op.source == source && op.destination == destination
    }
    predicate In(scope: Scope) { scope.Every? || To(scope.destination) }
  }

  datatype Reservation = Reservation(bytes: int, messages: int)

  datatype Pair = Pair(source: PeerId, destination: PeerId)

  datatype Admission =
    | DeliverLocally
    | Forward(relay: Relay, immediately: bool)
    | Status(status: RelayStatus)

  datatype Limits = Limits(coordinator: PeerId, maxBytes: nat, maxMessages: nat)

  // ---------- the specification: functions of the list of relays ----------

  function Bytes(relays: seq<Relay>, d: PeerId): nat {
    if relays == [] then 0
    else Bytes(relays[..|relays| - 1], d) + (if relays[|relays| - 1].To(d) then relays[|relays| - 1].reserved else 0)
  }

  function Messages(relays: seq<Relay>, d: PeerId): nat {
    if relays == [] then 0
    else Messages(relays[..|relays| - 1], d) + (if relays[|relays| - 1].To(d) then 1 else 0)
  }

  // The relays of one (source, destination) pair, oldest first.
  function OfPair(relays: seq<Relay>, s: PeerId, d: PeerId): seq<Relay> {
    if relays == [] then []
    else if relays[|relays| - 1].Between(s, d) then OfPair(relays[..|relays| - 1], s, d) + [relays[|relays| - 1]]
    else OfPair(relays[..|relays| - 1], s, d)
  }

  function Keys(relays: seq<Relay>): (ks: seq<MessageKey>)
    ensures |ks| == |relays|
  {
    seq(|relays|, i requires 0 <= i < |relays| => relays[i].Key())
  }

  function Find(relays: seq<Relay>, key: MessageKey): (r: Option<Relay>)
    ensures r.Some? <==> exists i :: 0 <= i < |relays| && relays[i].Key() == key
    ensures r.Some? ==> r.value in relays && r.value.Key() == key
  {
    if relays == [] then None
    else if relays[|relays| - 1].Key() == key then Some(relays[|relays| - 1])
    else Find(relays[..|relays| - 1], key)
  }

  function Without(relays: seq<Relay>, key: MessageKey): seq<Relay> {
    if relays == [] then []
    else if relays[|relays| - 1].Key() == key then Without(relays[..|relays| - 1], key)
    else Without(relays[..|relays| - 1], key) + [relays[|relays| - 1]]
  }

  // Which relays one bulk termination removes.
  datatype Scope = Every | OnlyTo(destination: PeerId)

  function Inside(relays: seq<Relay>, scope: Scope): seq<Relay> {
    if relays == [] then []
    else if relays[|relays| - 1].In(scope) then Inside(relays[..|relays| - 1], scope) + [relays[|relays| - 1]]
    else Inside(relays[..|relays| - 1], scope)
  }

  function Outside(relays: seq<Relay>, scope: Scope): seq<Relay> {
    if relays == [] then []
    else if relays[|relays| - 1].In(scope) then Outside(relays[..|relays| - 1], scope)
    else Outside(relays[..|relays| - 1], scope) + [relays[|relays| - 1]]
  }

  // The one relay of a pair whose final hop may be on the wire: the oldest.
  function Head(relays: seq<Relay>, s: PeerId, d: PeerId): Option<Relay> {
    var pair := OfPair(relays, s, d);
    if pair == [] then None else Some(pair[0])
  }

  predicate IsHead(relays: seq<Relay>, r: Relay) {
    Head(relays, r.op.source, r.op.destination) == Some(r)
  }

  // The heads towards one destination among the first `n` relays, oldest first.
  function HeadsTo(relays: seq<Relay>, n: nat, d: PeerId): seq<Relay>
    requires n <= |relays|
  {
    if n == 0 then []
    else if relays[n - 1].To(d) && IsHead(relays, relays[n - 1]) then HeadsTo(relays, n - 1, d) + [relays[n - 1]]
    else HeadsTo(relays, n - 1, d)
  }

  ghost predicate UniqueKeys(relays: seq<Relay>) {
    forall i, j :: 0 <= i < j < |relays| ==> relays[i].Key() != relays[j].Key()
  }

  ghost predicate WithinLimits(relays: seq<Relay>, limits: Limits) {
    forall d :: Bytes(relays, d) <= limits.maxBytes && Messages(relays, d) <= limits.maxMessages
  }

  // The admission decision: the outcome and the relays held afterwards.
  function AdmissionOf(relays: seq<Relay>, limits: Limits, candidate: Relay, members: set<PeerId>, ready: bool)
    : (Result<Admission>, seq<Relay>)
  {
    var op := candidate.op;
    if op.source !in members || op.destination == op.source then (Err(ProtocolMismatch), relays)
    else if op.destination !in members then (Ok(Status(DestinationNotInGroup)), relays)
    else if op.destination == limits.coordinator then (Ok(DeliverLocally), relays)
    else if !ready then (Ok(Status(DestinationUnavailable)), relays)
    else
      match Find(relays, op.Key())
      case Some(existing) =>
        if existing.op != op || existing.reserved != candidate.reserved then (Err(MessageIdCollision), relays)
        else (Ok(Forward(existing, false)), relays)
      case None => ReservationOf(relays, limits, candidate)
  }

  function ReservationOf(relays: seq<Relay>, limits: Limits, candidate: Relay): (Result<Admission>, seq<Relay>) {
    var op := candidate.op;
    if Bytes(relays, op.destination) + candidate.reserved > limits.maxBytes
       || Messages(relays, op.destination) + 1 > limits.maxMessages
    then (Ok(Status(RelayQueueFull)), relays)
    else (Ok(Forward(candidate, OfPair(relays, op.source, op.destination) == [])), relays + [candidate])
  }

  // ---------- what an admission decides ----------

  predicate Routes(op: Operation, members: set<PeerId>, coordinator: PeerId) {
    op.source in members && op.destination in members && op.destination != op.source && op.destination != coordinator
  }

  // Every outcome, on the operation, the view and the relays held: nothing is taken except
  // a new relay that fits, and it goes out at once only when its pair holds no other.
  lemma AdmissionDecided(relays: seq<Relay>, limits: Limits, x: Relay, members: set<PeerId>, ready: bool)
    requires UniqueKeys(relays)
    ensures var (r, after) := AdmissionOf(relays, limits, x, members, ready);
            var (op, c) := (x.op, limits.coordinator);
            var known := exists y :: y in relays && y.op.source == op.source && y.op.id == op.id;
            var same := exists y :: y in relays && y.op == op && y.reserved == x.reserved;
            var fits := Bytes(relays, op.destination) + x.reserved <= limits.maxBytes && Messages(relays, op.destination) < limits.maxMessages;
            && (r == Err(ProtocolMismatch) <==> op.source !in members || op.destination == op.source)
            && (r == Ok(Status(DestinationNotInGroup)) <==> op.source in members && op.destination !in members && op.destination != op.source)
            && (r == Ok(DeliverLocally) <==> op.source in members && op.destination in members && op.destination != op.source && op.destination == c)
            && (r == Ok(Status(DestinationUnavailable)) <==> Routes(op, members, c) && !ready)
            && (r == Err(MessageIdCollision) <==> Routes(op, members, c) && ready && known && !same)
            && (r == Ok(Status(RelayQueueFull)) <==> Routes(op, members, c) && ready && !known && !fits)
            && (Routes(op, members, c) && ready && same ==> r.Ok? && r.value.Forward? && r.value.relay.op == op && !r.value.immediately)
            && (Routes(op, members, c) && ready && !known && fits ==>
                  r == Ok(Forward(x, forall y :: y in relays ==> y.op.source != op.source || y.op.destination != op.destination)))
            && after == (if Routes(op, members, c) && ready && !known && fits then relays + [x] else relays)
  {
    OfPairMembers(relays, x.op.source, x.op.destination);
    var pair := OfPair(relays, x.op.source, x.op.destination);
    assert pair != [] ==> pair[0] in relays && pair[0].Between(x.op.source, x.op.destination);
    var found := Find(relays, x.Key());
    assert found.Some? ==> forall y :: y in relays && y.Key() == x.Key() ==> y == found.value;
  }

  // ---------- how the list functions react to one change ----------

  lemma PairAppended(relays: seq<Relay>, x: Relay, s: PeerId, d: PeerId)
    ensures OfPair(relays + [x], s, d) == if x.Between(s, d) then OfPair(relays, s, d) + [x] else OfPair(relays, s, d)
  {
    assert (relays + [x])[..|relays|] == relays;
  }

  lemma SumsAppended(relays: seq<Relay>, x: Relay, d: PeerId)
    ensures Bytes(relays + [x], d) == Bytes(relays, d) + (if x.op.destination == d then x.reserved else 0)
    ensures Messages(relays + [x], d) == Messages(relays, d) + (if x.op.destination == d then 1 else 0)
    ensures Bytes([], d) == 0 && Messages([], d) == 0
  {
    assert (relays + [x])[..|relays|] == relays;
  }

  lemma Appended(relays: seq<Relay>, x: Relay)
    ensures forall d :: Bytes(relays + [x], d) == Bytes(relays, d) + (if x.To(d) then x.reserved else 0)
    ensures forall d :: Messages(relays + [x], d) == Messages(relays, d) + (if x.To(d) then 1 else 0)
    ensures forall s, d :: OfPair(relays + [x], s, d) == if x.Between(s, d) then OfPair(relays, s, d) + [x] else OfPair(relays, s, d)
    ensures forall key :: Without(relays + [x], key) == if x.Key() == key then Without(relays, key) else Without(relays, key) + [x]
  {
    assert (relays + [x])[..|relays|] == relays;
  }

  lemma {:induction false} WithoutAbsent(relays: seq<Relay>, key: MessageKey)
    requires Find(relays, key).None?
    ensures Without(relays, key) == relays
  {
    if relays != [] {
      var rest := relays[..|relays| - 1];
      assert relays == rest + [relays[|relays| - 1]];
      WithoutAbsent(rest, key);
    }
  }

  lemma {:induction false} WithoutMembers(relays: seq<Relay>, key: MessageKey)
    ensures forall r :: r in Without(relays, key) <==> r in relays && r.Key() != key
  {
    if relays != [] {
      var rest := relays[..|relays| - 1];
      assert relays == rest + [relays[|relays| - 1]];
      WithoutMembers(rest, key);
    }
  }

  lemma {:induction false} WithoutUnique(relays: seq<Relay>, key: MessageKey)
    requires UniqueKeys(relays)
    ensures UniqueKeys(Without(relays, key))
  {
    if relays != [] {
      var rest, last := relays[..|relays| - 1], relays[|relays| - 1];
      WithoutUnique(rest, key);
      WithoutMembers(rest, key);
      if last.Key() != key {
        var smaller := Without(rest, key);
        forall i | 0 <= i < |smaller| ensures smaller[i].Key() != last.Key() {
          assert smaller[i] in rest;
        }
      }
    }
  }

  // Releasing one relay returns exactly its own reservation.
  lemma {:induction false} WithoutReleases(relays: seq<Relay>, key: MessageKey, d: PeerId)
    requires UniqueKeys(relays) && Find(relays, key).Some?
    ensures var gone := Find(relays, key).value;
            && Bytes(relays, d) == Bytes(Without(relays, key), d) + (if gone.To(d) then gone.reserved else 0)
            && Messages(relays, d) == Messages(Without(relays, key), d) + (if gone.To(d) then 1 else 0)
  {
    var rest, last := relays[..|relays| - 1], relays[|relays| - 1];
    if last.Key() == key {
      assert Find(rest, key).None?;
      WithoutAbsent(rest, key);
    } else {
      WithoutReleases(rest, key, d);
      Appended(Without(rest, key), last);
    }
  }

  lemma {:induction false} WithoutOfPair(relays: seq<Relay>, key: MessageKey, s: PeerId, d: PeerId)
    ensures OfPair(Without(relays, key), s, d) == Without(OfPair(relays, s, d), key)
  {
    if relays != [] {
      var rest, last := relays[..|relays| - 1], relays[|relays| - 1];
      WithoutOfPair(rest, key, s, d);
      Appended(Without(rest, key), last);
      Appended(OfPair(rest, s, d), last);
    }
  }

  lemma {:induction false} OfPairMembers(relays: seq<Relay>, s: PeerId, d: PeerId)
    ensures forall r :: r in OfPair(relays, s, d) <==> r in relays && r.Between(s, d)
  {
    if relays != [] {
      var rest := relays[..|relays| - 1];
      assert relays == rest + [relays[|relays| - 1]];
      OfPairMembers(rest, s, d);
    }
  }

  lemma {:induction false} OfPairUnique(relays: seq<Relay>, s: PeerId, d: PeerId)
    requires UniqueKeys(relays)
    ensures UniqueKeys(OfPair(relays, s, d))
  {
    if relays != [] {
      var rest, last := relays[..|relays| - 1], relays[|relays| - 1];
      OfPairUnique(rest, s, d);
      OfPairMembers(rest, s, d);
      var smaller := OfPair(rest, s, d);
      forall i | 0 <= i < |smaller| ensures smaller[i].Key() != last.Key() {
        assert smaller[i] in rest;
      }
    }
  }

  // Dart's List.remove: the first occurrence.
  function RemoveFirst(keys: seq<MessageKey>, key: MessageKey): seq<MessageKey> {
    if keys == [] then []
    else if keys[0] == key then keys[1..]
    else [keys[0]] + RemoveFirst(keys[1..], key)
  }

  lemma {:induction false} RemoveFirstAppend(keys: seq<MessageKey>, last: MessageKey, key: MessageKey)
    ensures RemoveFirst(keys + [last], key)
            == if key in keys then RemoveFirst(keys, key) + [last]
               else if key == last then keys else keys + [last]
  {
    if keys == [] {
    } else {
      assert (keys + [last])[1..] == keys[1..] + [last];
      assert keys == [keys[0]] + keys[1..];
      RemoveFirstAppend(keys[1..], last, key);
    }
  }

  lemma {:induction false} RemoveFirstAbsent(keys: seq<MessageKey>, key: MessageKey)
    requires key !in keys
    ensures RemoveFirst(keys, key) == keys
  {
    if keys != [] {
      RemoveFirstAbsent(keys[1..], key);
    }
  }

  // Removing a key from a pair's key list is removing its relay from the pair.
  lemma {:induction false} KeysWithout(relays: seq<Relay>, key: MessageKey)
    requires UniqueKeys(relays)
    ensures RemoveFirst(Keys(relays), key) == Keys(Without(relays, key))
  {
    if relays != [] {
      var rest, last := relays[..|relays| - 1], relays[|relays| - 1];
      KeysWithout(rest, key);
      assert Keys(relays) == Keys(rest) + [last.Key()];
      RemoveFirstAppend(Keys(rest), last.Key(), key);
      if last.Key() == key {
        assert Find(rest, key).None?;
        WithoutAbsent(rest, key);
      } else {
        if key !in Keys(rest) { RemoveFirstAbsent(Keys(rest), key); }
        assert Keys(Without(relays, key)) == Keys(Without(rest, key)) + [last.Key()];
      }
    }
  }

  // ---------- the table ----------

  class CoordinatorRelayTable {
    const limits: Limits
    // Insertion-ordered, as the program's map literal is.
    var operations: seq<Relay>
    var reservations: map<PeerId, Reservation>
    var order: map<Pair, seq<MessageKey>>

    ghost predicate Valid()
      reads this
    {
      && UniqueKeys(operations)
      && WithinLimits(operations, limits)
      && ReservationsExact(operations, reservations)
      && OrderExact(operations, order)
    }

    constructor (coordinator: PeerId, maxBytes: nat, maxMessages: nat)
      ensures Valid() && operations == [] && limits == Limits(coordinator, maxBytes, maxMessages)
    {
      limits := Limits(coordinator, maxBytes, maxMessages);
      operations := [];
      reservations := map[];
      order := map[];
    }

    method ReservedBytes(d: PeerId) returns (n: int)
      requires Valid()
      ensures n == Bytes(operations, d) && 0 <= n <= limits.maxBytes
    {
      n := if d in reservations then reservations[d].bytes else 0;
      if d !in reservations { NoMessagesNoBytes(operations, d); }
    }

    method ReservedMessages(d: PeerId) returns (n: int)
      requires Valid()
      ensures n == Messages(operations, d) && 0 <= n <= limits.maxMessages
    {
      n := if d in reservations then reservations[d].messages else 0;
    }

    method Admit(candidate: Relay, members: set<PeerId>, ready: bool) returns (r: Result<Admission>)
      requires Valid()
      modifies this
      ensures Valid()
      ensures (r, operations) == AdmissionOf(old(operations), limits, candidate, members, ready)
    {
      var op := candidate.op;
      if op.source !in members || op.destination == op.source { return Err(ProtocolMismatch); }
      if op.destination !in members { return Ok(Status(DestinationNotInGroup)); }
      if op.destination == limits.coordinator { return Ok(DeliverLocally); }
      if !ready { return Ok(Status(DestinationUnavailable)); }

      var existing := Find(operations, op.Key());
      if existing.Some? {
        if existing.value.op != op || existing.value.reserved != candidate.reserved {
          return Err(MessageIdCollision);
        }
        return Ok(Forward(existing.value, false));
      }

      r := Reserve(candidate);
    }

    // Admits a relay that is new, unless a cap of its destination is exhausted.
    method Reserve(candidate: Relay) returns (r: Result<Admission>)
      requires Valid() && Find(operations, candidate.Key()).None?
      modifies this
      ensures Valid()
      ensures (r, operations) == ReservationOf(old(operations), limits, candidate)
    {
      var d := candidate.op.destination;
      var pair := Pair(candidate.op.source, d);
      ReservationAppended(operations, limits, reservations, candidate);
      OrderAppended(operations, order, candidate);
      var reservation := ReservedFor(reservations, d);
      if reservation.bytes + candidate.reserved > limits.maxBytes || reservation.messages + 1 > limits.maxMessages {
        return Ok(Status(RelayQueueFull));
      }
      UniqueAppended(operations, candidate);
      reservations := reservations[d := Reservation(reservation.bytes + candidate.reserved, reservation.messages + 1)];
      order := order[pair := QueuedFor(order, pair) + [candidate.Key()]];
      operations := operations + [candidate];
      r := Ok(Forward(candidate, |order[pair]| == 1));
    }

    // Releases a relay; a relay already released is left alone, so that completion
    // and authority loss can race without releasing twice.
    method Complete(key: MessageKey) returns (r: Option<Relay>)
      requires Valid()
      modifies this
      ensures Valid()
      ensures r == Find(old(operations), key)
      ensures operations == Without(old(operations), key)
    {
      r := Find(operations, key);
      if r.None? {
        WithoutAbsent(operations, key);
        return;
      }
      var relay := r.value;
      var pair := Pair(relay.op.source, relay.op.destination);
      Released(operations, limits, reservations, order, key);
      reservations := ReservationsWithout(reservations, relay);
      order := OrderWithout(order, pair, key);
      operations := Without(operations, key);
    }

    method TakeNextForward(s: PeerId, d: PeerId) returns (r: Option<Relay>)
      requires Valid()
      ensures r == Head(operations, s, d)
    {
      var pair := Pair(s, d);
      if pair !in order || order[pair] == [] { return None; }
      r := Find(operations, order[pair][0]);
      HeadByKey(operations, s, d);
    }

    // One pass over a snapshot of the relays, releasing every relay in scope.
    method RemoveWhere(scope: Scope) returns (removed: seq<Relay>)
      requires Valid()
      modifies this
      ensures Valid()
      ensures operations == Outside(old(operations), scope)
      ensures removed == Inside(old(operations), scope)
    {
      var entries := operations;
      removed := [];
      for i := 0 to |entries|
        invariant Valid()
        invariant operations == Outside(entries[..i], scope) + entries[i..]
        invariant removed == Inside(entries[..i], scope)
      {
        RemoveStep(entries, i, scope);
        if entries[i].In(scope) {
          var gone := Complete(entries[i].Key());
          removed := removed + [entries[i]];
        }
      }
      assert entries[..|entries|] == entries;
    }

    // The relays to submit again from chunk 0 once a destination has resumed.
    method ForwardableForDestination(d: PeerId) returns (heads: seq<Relay>)
      requires Valid()
      ensures heads == HeadsTo(operations, |operations|, d)
    {
      heads := [];
      for i := 0 to |operations|
        invariant heads == HeadsTo(operations, i, d)
      {
        if operations[i].To(d) {
          var next := TakeNextForward(operations[i].op.source, d);
          if next == Some(operations[i]) { heads := heads + [operations[i]]; }
        }
      }
    }
  }

  // One iteration of RemoveWhere over the snapshot `entries`.
  lemma RemoveStep(entries: seq<Relay>, i: nat, scope: Scope)
    requires i < |entries| && UniqueKeys(Outside(entries[..i], scope) + entries[i..])
    ensures Inside(entries[..i + 1], scope)
            == if entries[i].In(scope) then Inside(entries[..i], scope) + [entries[i]] else Inside(entries[..i], scope)
    ensures Outside(entries[..i + 1], scope) + entries[i + 1..]
            == if entries[i].In(scope) then Without(Outside(entries[..i], scope) + entries[i..], entries[i].Key())
               else Outside(entries[..i], scope) + entries[i..]
  {
    var kept := Outside(entries[..i], scope);
    assert entries[..i + 1][..i] == entries[..i];
    assert entries[i..] == [entries[i]] + entries[i + 1..];
    assert kept + entries[i..] == kept + [entries[i]] + entries[i + 1..];
    if entries[i].In(scope) {
      WithoutMiddle(kept, entries[i], entries[i + 1..]);
    } else {
      assert Outside(entries[..i + 1], scope) == kept + [entries[i]];
    }
  }

  lemma {:induction false} WithoutMiddle(a: seq<Relay>, x: Relay, b: seq<Relay>)
    requires UniqueKeys(a + [x] + b)
    ensures Without(a + [x] + b, x.Key()) == a + b
  {
    var whole := a + [x] + b;
    if b == [] {
      assert whole[..|whole| - 1] == a;
      forall i | 0 <= i < |a| ensures a[i].Key() != x.Key() {
        assert whole[i] == a[i] && whole[|a|] == x;
      }
      WithoutAbsent(a, x.Key());
      assert a + b == a;
    } else {
      var front, last := b[..|b| - 1], b[|b| - 1];
      assert whole[..|whole| - 1] == a + [x] + front;
      assert whole[|whole| - 1] == last && whole[|a|] == x;
      WithoutMiddle(a, x, front);
      assert a + b == a + front + [last];
    }
  }

  ghost predicate ReservationsExact(relays: seq<Relay>, reservations: map<PeerId, Reservation>) {
    && (forall d :: d in reservations <==> Messages(relays, d) > 0)
    && (forall d :: d in reservations ==> reservations[d] == Reservation(Bytes(relays, d), Messages(relays, d)))
  }

  ghost predicate OrderExact(relays: seq<Relay>, order: map<Pair, seq<MessageKey>>) {
    && (forall p :: p in order <==> OfPair(relays, p.source, p.destination) != [])
    && (forall p :: p in order ==> order[p] == Keys(OfPair(relays, p.source, p.destination)))
  }

  lemma {:induction false} NoMessagesNoBytes(relays: seq<Relay>, d: PeerId)
    requires Messages(relays, d) == 0
    ensures Bytes(relays, d) == 0
  {
    if relays != [] {
      NoMessagesNoBytes(relays[..|relays| - 1], d);
    }
  }

  lemma HeadByKey(relays: seq<Relay>, s: PeerId, d: PeerId)
    requires UniqueKeys(relays) && OfPair(relays, s, d) != []
    ensures Find(relays, Keys(OfPair(relays, s, d))[0]) == Head(relays, s, d)
  {
    OfPairMembers(relays, s, d);
    var first := OfPair(relays, s, d)[0];
    assert first in relays;
  }

  function ReservedFor(reservations: map<PeerId, Reservation>, d: PeerId): Reservation {
    if d in reservations then reservations[d] else Reservation(0, 0)
  }

  function QueuedFor(order: map<Pair, seq<MessageKey>>, pair: Pair): seq<MessageKey> {
    if pair in order then order[pair] else []
  }

  // What the index of reservations holds before, and becomes after, one admission.
  lemma ReservationAppended(relays: seq<Relay>, limits: Limits, reservations: map<PeerId, Reservation>, x: Relay)
    requires WithinLimits(relays, limits) && ReservationsExact(relays, reservations)
    ensures var d := x.op.destination;
            var before := ReservedFor(reservations, d);
            && before == Reservation(Bytes(relays, d), Messages(relays, d))
            && ReservationsExact(relays + [x], reservations[d := Reservation(before.bytes + x.reserved, before.messages + 1)])
            && (before.bytes + x.reserved <= limits.maxBytes && before.messages + 1 <= limits.maxMessages ==>
                  WithinLimits(relays + [x], limits))
  {
    var d := x.op.destination;
    if d !in reservations { NoMessagesNoBytes(relays, d); }
    forall p
      ensures Bytes(relays + [x], p) == Bytes(relays, p) + (if x.To(p) then x.reserved else 0)
      ensures Messages(relays + [x], p) == Messages(relays, p) + (if x.To(p) then 1 else 0)
    {
      SumsAppended(relays, x, p);
    }
  }

  lemma UniqueAppended(relays: seq<Relay>, x: Relay)
    requires UniqueKeys(relays) && Find(relays, x.Key()).None?
    ensures UniqueKeys(relays + [x])
  {
  }

  lemma OrderAppended(relays: seq<Relay>, order: map<Pair, seq<MessageKey>>, x: Relay)
    requires OrderExact(relays, order)
    ensures var pair := Pair(x.op.source, x.op.destination);
            var queued := QueuedFor(order, pair);
            && queued == Keys(OfPair(relays, x.op.source, x.op.destination))
            && (queued == [] <==> OfPair(relays, x.op.source, x.op.destination) == [])
            && OrderExact(relays + [x], order[pair := queued + [x.Key()]])
  {
    var pair := Pair(x.op.source, x.op.destination);
    var pairRelays := OfPair(relays, x.op.source, x.op.destination);
    assert Keys(pairRelays + [x]) == Keys(pairRelays) + [x.Key()];
    var after := order[pair := Keys(pairRelays) + [x.Key()]];
    forall p: Pair
      ensures p in after <==> OfPair(relays + [x], p.source, p.destination) != []
      ensures p in after ==> after[p] == Keys(OfPair(relays + [x], p.source, p.destination))
    {
      PairAppended(relays, x, p.source, p.destination);
    }
  }

  function ReservationsWithout(reservations: map<PeerId, Reservation>, r: Relay): map<PeerId, Reservation>
    requires r.op.destination in reservations
  {
    var d := r.op.destination;
    var left := Reservation(reservations[d].bytes - r.reserved, reservations[d].messages - 1);
    if left == Reservation(0, 0) then reservations - {d} else reservations[d := left]
  }

  function OrderWithout(order: map<Pair, seq<MessageKey>>, pair: Pair, key: MessageKey): map<Pair, seq<MessageKey>>
    requires pair in order
  {
    var queued := RemoveFirst(order[pair], key);
    if queued == [] then order - {pair} else order[pair := queued]
  }

  // What the two indexes become when one admitted relay is released.
  lemma Released(relays: seq<Relay>, limits: Limits, reservations: map<PeerId, Reservation>,
                 order: map<Pair, seq<MessageKey>>, key: MessageKey)
    requires UniqueKeys(relays) && WithinLimits(relays, limits)
    requires ReservationsExact(relays, reservations) && OrderExact(relays, order)
    requires Find(relays, key).Some?
    ensures var gone := Find(relays, key).value;
            var d, pair := gone.op.destination, Pair(gone.op.source, gone.op.destination);
            && d in reservations && pair in order
            && UniqueKeys(Without(relays, key)) && WithinLimits(Without(relays, key), limits)
            && ReservationsExact(Without(relays, key), ReservationsWithout(reservations, gone))
            && OrderExact(Without(relays, key), OrderWithout(order, pair, key))
  {
    WithoutUnique(relays, key);
    ReleasedReservations(relays, limits, reservations, key);
    ReleasedOrder(relays, order, key);
  }

  lemma ReleasedReservations(relays: seq<Relay>, limits: Limits, reservations: map<PeerId, Reservation>, key: MessageKey)
    requires UniqueKeys(relays) && WithinLimits(relays, limits)
    requires ReservationsExact(relays, reservations)
    requires Find(relays, key).Some?
    ensures var gone := Find(relays, key).value;
            var d := gone.op.destination;
            && d in reservations
            && WithinLimits(Without(relays, key), limits)
            && ReservationsExact(Without(relays, key), ReservationsWithout(reservations, gone))
  {
    var gone := Find(relays, key).value;
    var rest := Without(relays, key);
    forall d
      ensures Bytes(relays, d) == Bytes(rest, d) + (if gone.To(d) then gone.reserved else 0)
      ensures Messages(relays, d) == Messages(rest, d) + (if gone.To(d) then 1 else 0)
      ensures Messages(rest, d) == 0 ==> Bytes(rest, d) == 0
    {
      WithoutReleases(relays, key, d);
      if Messages(rest, d) == 0 { NoMessagesNoBytes(rest, d); }
    }
  }

  lemma ReleasedOrder(relays: seq<Relay>, order: map<Pair, seq<MessageKey>>, key: MessageKey)
    requires UniqueKeys(relays) && OrderExact(relays, order)
    requires Find(relays, key).Some?
    ensures var gone := Find(relays, key).value;
            var pair := Pair(gone.op.source, gone.op.destination);
            && pair in order
            && OrderExact(Without(relays, key), OrderWithout(order, pair, key))
  {
    var gone := Find(relays, key).value;
    var pair := Pair(gone.op.source, gone.op.destination);
    OwnPairReleased(relays, key);
    var queued := RemoveFirst(order[pair], key);
    var after := if queued == [] then order - {pair} else order[pair := queued];
    var rest := Without(relays, key);
    forall p: Pair
      ensures p in after <==> OfPair(rest, p.source, p.destination) != []
      ensures p in after ==> after[p] == Keys(OfPair(rest, p.source, p.destination))
    {
      if p != pair { OtherPairUntouched(relays, key, p.source, p.destination); }
    }
  }

  lemma OwnPairReleased(relays: seq<Relay>, key: MessageKey)
    requires UniqueKeys(relays) && Find(relays, key).Some?
    ensures var gone := Find(relays, key).value;
            var s, d := gone.op.source, gone.op.destination;
            && OfPair(relays, s, d) != []
            && RemoveFirst(Keys(OfPair(relays, s, d)), key) == Keys(OfPair(Without(relays, key), s, d))
            && (Keys(OfPair(Without(relays, key), s, d)) == [] <==> OfPair(Without(relays, key), s, d) == [])
  {
    var gone := Find(relays, key).value;
    OfPairMembers(relays, gone.op.source, gone.op.destination);
    OfPairUnique(relays, gone.op.source, gone.op.destination);
    KeysWithout(OfPair(relays, gone.op.source, gone.op.destination), key);
    WithoutOfPair(relays, key, gone.op.source, gone.op.destination);
  }

  lemma OtherPairUntouched(relays: seq<Relay>, key: MessageKey, s: PeerId, d: PeerId)
    requires UniqueKeys(relays) && Find(relays, key).Some? && !Find(relays, key).value.Between(s, d)
    ensures OfPair(Without(relays, key), s, d) == OfPair(relays, s, d)
  {
    WithoutOfPair(relays, key, s, d);
    OfPairMembers(relays, s, d);
    assert Find(OfPair(relays, s, d), key).None?;
    WithoutAbsent(OfPair(relays, s, d), key);
  }
}
