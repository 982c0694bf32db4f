/**
 The Android server's notification queue of one endpoint: at most one notification is
 unacknowledged, and it is the head of the queue.
 */
module NotificationQueue {
  import opened Types
  import opened GattBackend

  const MAX_SERVER_NOTIFICATION_QUEUE: nat := 64

  // `known` is whether the endpoint still has a device; `handed` is every fragment the
  // platform accepted, in order.
  datatype Notifier = Notifier(known: bool, queue: seq<seq<Byte>>, inFlight: bool, handed: seq<seq<Byte>>)

  const FRESH := Notifier(true, [], false, [])

  // Hands the head to the platform unless something is in flight; `platform` is whether
  // the platform takes it.
  function StartNext(n: Notifier, platform: bool): (bool, Notifier) {
    if n.inFlight then (true, n)
    else if !n.known then (false, n)
    else if n.queue == [] then (true, n)
    else if !platform then (false, n)
    else (true, n.(inFlight := true, handed := n.handed + [n.queue[0]]))
  }

  // The endpoint is dropped from every table.
  function Dropped(n: Notifier): Notifier { n.(known := false, queue := [], inFlight := false) }

  function Submit(n: Notifier, fragment: seq<Byte>, platform: bool): (Submission, Notifier) {
    if !n.known then (TerminalFailure, n)
    else if |n.queue| >= MAX_SERVER_NOTIFICATION_QUEUE then (TemporarilyUnavailable, n)
    else
      var (accepted, next) := StartNext(n.(queue := n.queue + [fragment]), platform);
      if accepted then (Submitted, next) else (TerminalFailure, Dropped(n))
  }

  // onNotificationSent: the head is acknowledged, and the next one goes out.
  function Acknowledged(n: Notifier, success: bool, platform: bool): Notifier {
    if n.queue == [] then n
    else
      var (started, next) := StartNext(n.(queue := n.queue[1..], inFlight := false), platform);
      if success && started then next else Dropped(n)
  }

  // In flight exactly while something is queued, and never more than the bound.
  predicate Inv(n: Notifier) {
    && (n.inFlight <==> n.queue != [])
    && |n.queue| <= MAX_SERVER_NOTIFICATION_QUEUE
    && (n.inFlight ==> n.handed != [] && n.handed[|n.handed| - 1] == n.queue[0])
    && (!n.known ==> n.queue == [])
  }

  // The fragments accepted so far: handed out, or waiting behind the one in flight.
  function Taken(n: Notifier): seq<seq<Byte>> { n.handed + (if n.queue == [] then [] else n.queue[1..]) }

  lemma SubmitKeeps(n: Notifier, fragment: seq<Byte>, platform: bool)
    requires Inv(n)
    ensures var (r, n') := Submit(n, fragment, platform);
            && Inv(n')
            && (r == Submitted ==> Taken(n') == Taken(n) + [fragment])
            && (r == TemporarilyUnavailable ==> n' == n && n.inFlight)
            && (r == TerminalFailure ==> n'.handed == n.handed && !n'.known)
            && (r == TemporarilyUnavailable <==> n.known && |n.queue| >= 64)
            && (r == TerminalFailure <==> !n.known || (!n.inFlight && !platform))
            && (r == Submitted && !n.inFlight ==> n'.handed == n.handed + [fragment])
            && (r == Submitted && n.inFlight ==> n'.handed == n.handed && n'.queue == n.queue + [fragment])
  {
  }

  lemma AcknowledgedKeeps(n: Notifier, success: bool, platform: bool)
    requires Inv(n)
    ensures var n' := Acknowledged(n, success, platform);
            Inv(n') && (n'.known && n.known ==> Taken(n') == Taken(n)) && n.handed <= n'.handed
            && (n'.known && n.queue != [] ==> |n'.queue| == |n.queue| - 1)
            && (n.queue == [] ==> n' == n)
            && (n.queue != [] ==> (n'.known <==> success && (|n.queue| > 1 ==> n.known && platform) && n.known))
            && (n'.known && |n.queue| > 1 ==> n'.handed == n.handed + [n.queue[1]])
  {
    if n.queue != [] && success && |n.queue| > 1 && platform {
      assert n.queue[1..] == [n.queue[1]] + n.queue[2..];
      assert n.queue[1..][1..] == n.queue[2..];
    }
  }
}
