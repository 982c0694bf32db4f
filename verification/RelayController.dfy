/**
 CoordinatorRelayController: what a coordinator says and sends after each relay
 admission and each final-hop result. The step functions are the specification; the
 class performs the steps on the indexed table.
 */
module RelayController {
  import opened Types
  import opened RelayTable

  datatype Receipt = Receipt(key: MessageKey, destination: PeerId)

  datatype Signal = Signal(key: MessageKey, destination: PeerId, status: RelayStatus)

  // The actions one coordinator step asks its connections to perform.
  datatype Actions = Actions(
    sourceHopAck: Option<nat> := None,
    deliver: Option<Operation> := None,
    forward: Option<Relay> := None,
    deliveryAck: Option<Receipt> := None,
    relayStatus: Option<Signal> := None,
    localState: Option<SendState> := None)

  function ReceiptFor(op: Operation): Receipt { Receipt(op.Key(), op.destination) }

  function SignalFor(op: Operation, status: RelayStatus): Signal { Signal(op.Key(), op.destination, status) }

  // A route failure goes to a remote source as a signal, to the coordinator's own
  // handle directly.
  function RouteFailure(coordinator: PeerId, op: Operation, status: RelayStatus,
                        sourceHopAck: Option<nat>, forward: Option<Relay>): Actions
  {
    if op.source == coordinator
    then Actions(sourceHopAck := sourceHopAck, localState := Some(Failed), forward := forward)
    else Actions(sourceHopAck := sourceHopAck, relayStatus := Some(SignalFor(op, status)), forward := forward)
  }

  // The failure goes to exactly the party that originated the operation: a remote source
  // gets one signal that names it, the coordinator's own handle fails.
  predicate TellsFailure(c: PeerId, op: Operation, status: RelayStatus, a: Actions) {
    && a.deliver.None? && a.deliveryAck.None?
    && (op.source != c ==>
          a.relayStatus == Some(Signal(MessageKey(op.source, op.id), op.destination, status)) && a.localState.None?)
    && (op.source == c ==> a.localState == Some(Failed) && a.relayStatus.None?)
  }

  // The outcome of a step: its actions (or error) and the relays held afterwards. An
  // error can still have released a relay.
  datatype Outcome = Outcome(result: Result<Actions>, relays: seq<Relay>)

  function Admitted(limits: Limits, relays: seq<Relay>, candidate: Relay, sourceHop: nat,
                    members: set<PeerId>, ready: bool): Outcome
  {
    var c, op := limits.coordinator, candidate.op;
    var ack := if op.source == c || op.mode != ReliableAcked then None else Some(sourceHop);
    var (admission, after) := AdmissionOf(relays, limits, candidate, members, ready);
    match admission
    case Err(e) => Outcome(Err(e), after)
    case Ok(Forward(relay, immediately)) =>
      Outcome(Ok(Actions(sourceHopAck := ack, forward := if immediately then Some(relay) else None)), after)
    case Ok(DeliverLocally) =>
      Outcome(Ok(Actions(
        sourceHopAck := ack,
        deliver := Some(op),
        deliveryAck := if op.source == c || op.mode != ReliableAcked then None else Some(ReceiptFor(op)),
        relayStatus := if op.source == c || op.mode != ReliableOrdered then None
                       else Some(SignalFor(op, SentToDestinationTransport)),
        localState := if op.source != c then None
                      else if op.mode == ReliableAcked then Some(RemoteAcknowledged) else Some(SentToTransport))),
        after)
    case Ok(Status(status)) => Outcome(Ok(RouteFailure(c, op, status, ack, None)), after)
  }

  function Submitted(limits: Limits, relays: seq<Relay>, key: MessageKey): Outcome {
    match Find(relays, key)
    case None => Outcome(Ok(Actions()), relays)
    case Some(r) =>
      var after := Without(relays, key);
      if r.op.mode != ReliableOrdered then Outcome(Err(ProtocolMismatch), after)
      else
        var next := Head(after, key.source, r.op.destination);
        if r.op.source == limits.coordinator
        then Outcome(Ok(Actions(localState := Some(SentToTransport), forward := next)), after)
        else Outcome(Ok(Actions(relayStatus := Some(SignalFor(r.op, SentToDestinationTransport)), forward := next)), after)
  }

  function Acknowledged(limits: Limits, relays: seq<Relay>, key: MessageKey): Outcome {
    match Find(relays, key)
    case None => Outcome(Ok(Actions()), relays)
    case Some(r) =>
      var after := Without(relays, key);
      if r.op.mode != ReliableAcked then Outcome(Err(ProtocolMismatch), after)
      else
        var next := Head(after, key.source, r.op.destination);
        if r.op.source == limits.coordinator
        then Outcome(Ok(Actions(localState := Some(RemoteAcknowledged), forward := next)), after)
        else Outcome(Ok(Actions(deliveryAck := Some(ReceiptFor(r.op)), forward := next)), after)
  }

  function FinalHopFailure(limits: Limits, relays: seq<Relay>, key: MessageKey, status: RelayStatus): Outcome {
    if status == SentToDestinationTransport then Outcome(Err(InvalidArgument), relays)
    else
      match Find(relays, key)
      case None => Outcome(Ok(Actions()), relays)
      case Some(r) =>
        var after := Without(relays, key);
        Outcome(Ok(RouteFailure(limits.coordinator, r.op, status, None, Head(after, key.source, r.op.destination))), after)
  }

  // One failure per relay to a destination that was removed or could not resume.
  function Failures(coordinator: PeerId, gone: seq<Relay>, status: RelayStatus): (actions: seq<Actions>)
    ensures |actions| == |gone|
  {
    seq(|gone|, i requires 0 <= i < |gone| => RouteFailure(coordinator, gone[i].op, status, None, None))
  }

  class CoordinatorRelayController {
    const table: CoordinatorRelayTable

    constructor (table: CoordinatorRelayTable)
      ensures this.table == table
    {
      this.table := table;
    }

    method Admit(candidate: Relay, sourceHop: nat, members: set<PeerId>, ready: bool) returns (r: Result<Actions>)
      requires table.Valid()
      modifies table
      ensures table.Valid()
      ensures Outcome(r, table.operations) == Admitted(table.limits, old(table.operations), candidate, sourceHop, members, ready)
    {
      var c, op := table.limits.coordinator, candidate.op;
      var admission := table.Admit(candidate, members, ready);
      var ack := if op.source == c || op.mode != ReliableAcked then None else Some(sourceHop);
      match admission
      case Err(e) => r := Err(e);
      case Ok(Forward(relay, immediately)) =>
        r := Ok(Actions(sourceHopAck := ack, forward := if immediately then Some(relay) else None));
      case Ok(DeliverLocally) =>
        var actions := Actions(sourceHopAck := ack, deliver := Some(op));
        if op.source != c && op.mode == ReliableAcked {
          actions := actions.(deliveryAck := Some(ReceiptFor(op)));
        }
        if op.source != c && op.mode == ReliableOrdered {
          actions := actions.(relayStatus := Some(SignalFor(op, SentToDestinationTransport)));
        }
        if op.source == c {
          actions := actions.(localState := Some(if op.mode == ReliableAcked then RemoteAcknowledged else SentToTransport));
        }
        r := Ok(actions);
      case Ok(Status(status)) =>
        r := Ok(RouteFailure(c, op, status, ack, None));
    }

    method FinalHopSubmitted(key: MessageKey) returns (r: Result<Actions>)
      requires table.Valid()
      modifies table
      ensures table.Valid()
      ensures Outcome(r, table.operations) == Submitted(table.limits, old(table.operations), key)
    {
      WithoutAbsentIfNone(table.operations, key);
      var relay := table.Complete(key);
      if relay.None? { return Ok(Actions()); }
      var op := relay.value.op;
      if op.mode != ReliableOrdered { return Err(ProtocolMismatch); }
      var next := table.TakeNextForward(key.source, op.destination);
      if op.source == table.limits.coordinator {
        return Ok(Actions(localState := Some(SentToTransport), forward := next));
      }
      return Ok(Actions(relayStatus := Some(SignalFor(op, SentToDestinationTransport)), forward := next));
    }

    method FinalHopAcknowledged(key: MessageKey) returns (r: Result<Actions>)
      requires table.Valid()
      modifies table
      ensures table.Valid()
      ensures Outcome(r, table.operations) == Acknowledged(table.limits, old(table.operations), key)
    {
      WithoutAbsentIfNone(table.operations, key);
      var relay := table.Complete(key);
      if relay.None? { return Ok(Actions()); }
      var op := relay.value.op;
      if op.mode != ReliableAcked { return Err(ProtocolMismatch); }
      var next := table.TakeNextForward(key.source, op.destination);
      if op.source == table.limits.coordinator {
        return Ok(Actions(localState := Some(RemoteAcknowledged), forward := next));
      }
      return Ok(Actions(deliveryAck := Some(ReceiptFor(op)), forward := next));
    }

    method FinalHopFailed(key: MessageKey, status: RelayStatus) returns (r: Result<Actions>)
      requires table.Valid()
      modifies table
      ensures table.Valid()
      ensures Outcome(r, table.operations) == FinalHopFailure(table.limits, old(table.operations), key, status)
      ensures status != SentToDestinationTransport && Find(old(table.operations), key).Some? ==>
                && r.Ok? && Find(table.operations, key).None?
                && TellsFailure(table.limits.coordinator, Find(old(table.operations), key).value.op, status, r.value)
    {
      if status == SentToDestinationTransport { return Err(InvalidArgument); }
      WithoutAbsentIfNone(table.operations, key);
      WithoutMembers(table.operations, key);
      var relay := table.Complete(key);
      if relay.None? { return Ok(Actions()); }
      var op := relay.value.op;
      var next := table.TakeNextForward(key.source, op.destination);
      return Ok(RouteFailure(table.limits.coordinator, op, status, None, next));
    }

    // A removed member, or a member whose resume failed for good.
    method DestinationGone(d: PeerId, status: RelayStatus) returns (actions: seq<Actions>)
      requires table.Valid()
      modifies table
      ensures table.Valid()
      ensures table.operations == Outside(old(table.operations), OnlyTo(d))
      ensures actions == Failures(table.limits.coordinator, Inside(old(table.operations), OnlyTo(d)), status)
    {
      var gone := table.RemoveWhere(OnlyTo(d));
      actions := Failures(table.limits.coordinator, gone, status);
    }

    // A resumed destination gets its heads again; nothing is admitted or released.
    method DestinationResumed(d: PeerId) returns (actions: seq<Actions>)
      requires table.Valid()
      ensures |actions| == |HeadsTo(table.operations, |table.operations|, d)|
      ensures forall i :: 0 <= i < |actions| ==>
                actions[i] == Actions(forward := Some(HeadsTo(table.operations, |table.operations|, d)[i]))
    {
      var heads := table.ForwardableForDestination(d);
      actions := seq(|heads|, i requires 0 <= i < |heads| => Actions(forward := Some(heads[i])));
    }

    // A former coordinator keeps nothing and signals nothing.
    method AuthorityLost()
      requires table.Valid()
      modifies table
      ensures table.Valid() && table.operations == []
      ensures forall d :: Bytes(table.operations, d) == 0 && Messages(table.operations, d) == 0
    {
      OutsideEvery(table.operations);
      var gone := table.RemoveWhere(Every);
    }
  }

  lemma WithoutAbsentIfNone(relays: seq<Relay>, key: MessageKey)
    ensures Find(relays, key).None? ==> Without(relays, key) == relays
  {
    if Find(relays, key).None? { WithoutAbsent(relays, key); }
  }

  lemma {:induction false} OutsideEvery(relays: seq<Relay>)
    ensures Outside(relays, Every) == [] && Inside(relays, Every) == relays
  {
    if relays != [] {
      OutsideEvery(relays[..|relays| - 1]);
    }
  }
}
