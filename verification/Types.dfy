/** Values shared by every part of the model. */
module Types {

  datatype Option<+T> = None | Some(value: T)

  datatype Result<+T> = Ok(value: T) | Err(error: ErrorCode)

  // The error codes that the modelled code raises (a subset of LpcErrorCode).
  datatype ErrorCode =
    | ProtocolMismatch
    | MessageIdCollision
    | ResourceExhausted
    | MessageTooLarge
    | SendQueueFull
    | InvalidState
    | InvalidArgument
    | TransportClosed
    | GroupFull
    | GroupMergeRejected

  type Byte = x: int | 0 <= x < 256

  const MAX_CHECKPOINT_BYTES: nat := 262144

  // A PeerId, GroupId or GroupMessageId is 16 opaque bytes. Only equality and the
  // byte-wise order of equal-length identifiers are ever used, so an identifier
  // stands for the number its bytes spell, most significant byte first.
  type PeerId = nat
  type GroupId = nat
  type GroupMessageId = nat

  // GROUP_RELIABLE carries only these two modes on the wire.
  datatype DeliveryMode = ReliableOrdered | ReliableAcked

  datatype SendPriority = Interactive | Normal | Bulk

  datatype SendState =
    | Queued
    | Transmitting
    | SentToTransport
    | RemoteAcknowledged
    | Failed
    | Cancelled
  {
    predicate Terminal() {
      SentToTransport? || RemoteAcknowledged? || Failed? || Cancelled?
    }
  }

  datatype RelayStatus =
    | SentToDestinationTransport
    | DestinationNotInGroup
    | DestinationUnavailable
    | DestinationAckTimeout
    | RelayQueueFull

  // The end-destination identity of a routed operation: it survives every hop,
  // retry and coordinator migration.
  datatype MessageKey = MessageKey(source: PeerId, id: GroupMessageId)

  datatype Operation = Operation(
    source: PeerId,
    destination: PeerId,
    id: GroupMessageId,
    mode: DeliveryMode,
    priority: SendPriority,
    bytes: seq<Byte>)
  {
    function Key(): MessageKey { MessageKey(source, id) }
  }

  function Max(a: int, b: int): int { if a < b then b else a }

  function Min(a: int, b: int): int { if a < b then a else b }
}
