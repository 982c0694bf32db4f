/**
 One direction of a GATT link from end to end: the sending connection's write queue, the
 Android server's bounded notification queue, the radio, and the receiver's reassembler.
 Acknowledgements, refusals, deliveries and failures come in any order.
 */
module GattLink {
  import opened Types
  import opened GattFragment
  import opened GattStream
  import B = GattBackend
  import N = NotificationQueue

  datatype Link = Link(
    sender: B.Backend,
    reply: Option<B.Submission>,   // the platform's answer, not yet seen by the sender
    native: N.Notifier,
    arrived: seq<nat>,             // when each delivered fragment reached the receiver
    receiver: Partial,
    received: seq<seq<Byte>>,      // complete frames handed up, in order
    finished: seq<seq<Byte>>,      // history: frames submitted completely, in order
    started: seq<seq<Byte>>)       // history: frames in the order their first fragment was submitted

  datatype Event =
    | Writes(frame: seq<Byte>, priority: SendPriority)
    | Submits(platform: bool)
    | Learns
    | NotificationSent(success: bool, platform: bool)
    | Delivers(now: nat)
    | Fails

  const FRESH := Link(B.EMPTY, None, N.FRESH, [], IDLE, [], [], [])

  function SubmitStep(l: Link, platform: bool): Link {
    var (fragment, sender) := B.Begin(l.sender);
    if fragment.None? then l
    else
      var (r, native) := N.Submit(l.native, fragment.value, platform);
      l.(sender := sender, reply := Some(r), native := native,
         started := if r == B.Submitted && sender.writes != [] && sender.writes[0].next == 0
                    then l.started + [sender.writes[0].frame] else l.started)
  }

  function LearnStep(l: Link): Link {
    if l.reply.None? then l
    else
      var done := l.sender.awaiting.Some? && l.sender.open && l.sender.writes != [] && l.reply.value == B.Submitted
                  && l.sender.writes[0].id == l.sender.awaiting.value
                  && l.sender.writes[0].next + 1 == |l.sender.writes[0].fragments|;
      l.(sender := B.Finish(l.sender, l.reply.value), reply := None,
         finished := if done then l.finished + [l.sender.writes[0].frame] else l.finished)
  }

  // The next fragment the platform accepted reaches the receiver.
  function DeliverStep(l: Link, now: nat): Link {
    if |l.arrived| >= |l.native.handed| then l
    else
      match Decode(l.native.handed[|l.arrived|])
      case Err(_) => l.(arrived := l.arrived + [now])
      case Ok(f) =>
        var (r, receiver) := Add(l.receiver, LINK_BOUNDS, f, now);
        l.(arrived := l.arrived + [now], receiver := receiver,
           received := if r.Ok? && r.value.Some? then l.received + [r.value.value] else l.received)
  }

  function Step(size: nat, l: Link, e: Event): Link {
    match e
    case Writes(frame, priority) => l.(sender := B.Queue(l.sender, size, B.MAX_QUEUED_BYTES, frame, priority).1)
    case Submits(platform) => SubmitStep(l, platform)
    case Learns => LearnStep(l)
    case NotificationSent(success, platform) =>
      if l.native.inFlight then l.(native := N.Acknowledged(l.native, success, platform)) else l
    case Delivers(now) => DeliverStep(l, now)
    case Fails => l.(sender := B.LinkDown(l.sender))
  }

  function Run(size: nat, events: seq<Event>): Link {
    if events == [] then FRESH else Step(size, Run(size, events[..|events| - 1]), events[|events| - 1])
  }

  // ---------- what is on the wire ----------

  ghost predicate Frames(frames: seq<seq<Byte>>, size: nat) {
    forall i :: 0 <= i < |frames| ==> B.Encodable(frames[i], size)
  }

  ghost function Wire(frames: seq<seq<Byte>>, size: nat): seq<seq<Byte>>
    requires Frames(frames, size)
  {
    if frames == [] then [] else Wire(frames[..|frames| - 1], size) + B.EncodedFrame(frames[|frames| - 1], size)
  }

  // How many fragments of the first frame the platform has accepted.
  ghost function Progress(l: Link): nat
    requires l.sender.writes != []
  {
    l.sender.writes[0].next + (if l.reply == Some(B.Submitted) then 1 else 0)
  }

  // While both ends of the local link live: everything finished, then the frame under way
  // so far.
  ghost predicate UnderWay(l: Link, size: nat)
    requires Frames(l.started, size) && Frames(l.finished, size)
  {
    if l.sender.writes != [] && Progress(l) > 0 then
      && Progress(l) <= |l.sender.writes[0].fragments|
      && l.started == l.finished + [l.sender.writes[0].frame]
      && N.Taken(l.native) == Wire(l.finished, size) + l.sender.writes[0].fragments[..Progress(l)]
    else
      l.started == l.finished && N.Taken(l.native) == Wire(l.finished, size)
  }

  ghost predicate OnWire(l: Link, size: nat) {
    && Frames(l.started, size) && Frames(l.finished, size)
    && (l.sender.open && l.native.known ==> UnderWay(l, size))
    && N.Taken(l.native) <= Wire(l.started, size)
  }

  ghost predicate Inv(l: Link, size: nat) {
    && B.Inv(l.sender, size, B.MAX_QUEUED_BYTES)
    && N.Inv(l.native)
    && (l.reply.Some? ==> l.sender.awaiting.Some?)
    && OnWire(l, size)
  }

  lemma WireSnoc(frames: seq<seq<Byte>>, frame: seq<Byte>, size: nat)
    requires Frames(frames, size) && B.Encodable(frame, size)
    ensures Frames(frames + [frame], size)
    ensures Wire(frames + [frame], size) == Wire(frames, size) + B.EncodedFrame(frame, size)
  {
    assert (frames + [frame])[..|frames|] == frames;
  }

  // ---------- every event ----------

  lemma WritesKeeps(l: Link, size: nat, frame: seq<Byte>, priority: SendPriority)
    requires Inv(l, size)
    ensures Inv(Step(size, l, Writes(frame, priority)), size)
  {
    B.QueueKeeps(l.sender, size, B.MAX_QUEUED_BYTES, frame, priority);
    QueuedHead(l.sender, size, frame, priority);
    QueuedOnWire(l, size, B.Queue(l.sender, size, B.MAX_QUEUED_BYTES, frame, priority).1);
  }

  // A new frame goes behind the others.
  lemma QueuedHead(b: B.Backend, size: nat, frame: seq<Byte>, priority: SendPriority)
    ensures var b' := B.Queue(b, size, B.MAX_QUEUED_BYTES, frame, priority).1;
            && b'.open == b.open && b'.awaiting == b.awaiting
            && (if b.writes != [] then b'.writes != [] && b'.writes[0] == b.writes[0]
                else b'.writes != [] ==> b'.writes[0].next == 0)
  {
  }

  lemma QueuedOnWire(l: Link, size: nat, sender: B.Backend)
    requires OnWire(l, size) && sender.open == l.sender.open
    requires if l.sender.writes != [] then sender.writes != [] && sender.writes[0] == l.sender.writes[0]
             else sender.writes != [] ==> sender.writes[0].next == 0
    requires l.sender.open && l.sender.writes == [] ==> l.reply.None?
    ensures OnWire(l.(sender := sender), size)
  {
  }

  // A head that is chosen while a frame is under way is that frame.
  lemma BeginHead(b: B.Backend, size: nat, limit: nat)
    requires B.Inv(b, size, limit) && B.Begin(b).0.Some?
    ensures var b' := B.Begin(b).1;
            && b'.writes != [] && B.WriteSound(b'.writes[0], size) && b'.open && b'.awaiting.Some?
            && B.Begin(b).0.value == b'.writes[0].fragments[b'.writes[0].next]
            && (if b.writes[0].next > 0 then b'.writes[0] == b.writes[0] else b'.writes[0].next == 0)
  {
    B.BeginKeeps(b, size, limit);
    B.ToFrontSound(b.writes, size);
  }

  lemma SubmitKeeps(l: Link, size: nat, platform: bool)
    requires Inv(l, size)
    ensures Inv(SubmitStep(l, platform), size)
  {
    var (fragment, sender) := B.Begin(l.sender);
    B.BeginKeeps(l.sender, size, B.MAX_QUEUED_BYTES);
    if fragment.Some? {
      N.SubmitKeeps(l.native, fragment.value, platform);
      BeginHead(l.sender, size, B.MAX_QUEUED_BYTES);
      var (r, native) := N.Submit(l.native, fragment.value, platform);
      if r == B.Submitted {
        TakenOnWire(l, size, sender, native, fragment.value);
      } else {
        RefusedOnWire(l, size, sender, r, native);
      }
    }
  }

  lemma TakenOnWire(l: Link, size: nat, sender: B.Backend, native: N.Notifier, fragment: seq<Byte>)
    requires OnWire(l, size) && l.sender.open && l.native.known && l.reply.None? && l.sender.writes != []
    requires sender.writes != [] && B.WriteSound(sender.writes[0], size) && fragment == sender.writes[0].fragments[sender.writes[0].next]
    requires if l.sender.writes[0].next > 0 then sender.writes[0] == l.sender.writes[0] else sender.writes[0].next == 0
    requires N.Taken(native) == N.Taken(l.native) + [fragment]
    ensures var started := if sender.writes[0].next == 0 then l.started + [sender.writes[0].frame] else l.started;
            OnWire(l.(sender := sender, reply := Some(B.Submitted), native := native, started := started), size)
  {
    SubmittedOnWire(l, size, sender.writes[0], fragment);
  }

  // A refused fragment leaves the wire as it was, or the native side is gone.
  lemma RefusedOnWire(l: Link, size: nat, sender: B.Backend, r: B.Submission, native: N.Notifier)
    requires OnWire(l, size) && l.sender.open && l.reply.None? && l.sender.writes != [] && r != B.Submitted
    requires sender.writes != [] && sender.writes[0].next == l.sender.writes[0].next
    requires l.sender.writes[0].next > 0 ==> sender.writes[0] == l.sender.writes[0]
    requires native == l.native || (!native.known && native.handed == l.native.handed && native.queue == [])
    ensures OnWire(l.(sender := sender, reply := Some(r), native := native), size)
  {
  }

  // One more fragment of the head is on the wire.
  lemma SubmittedOnWire(l: Link, size: nat, head: B.Write, fragment: seq<Byte>)
    requires OnWire(l, size) && l.sender.open && l.native.known && l.sender.writes != [] && l.reply.None?
    requires B.WriteSound(head, size) && fragment == head.fragments[head.next]
    requires if l.sender.writes[0].next > 0 then head == l.sender.writes[0] else head.next == 0
    ensures var started := if head.next == 0 then l.started + [head.frame] else l.started;
            && Frames(started, size) && started == l.finished + [head.frame]
            && N.Taken(l.native) + [fragment] == Wire(l.finished, size) + head.fragments[..head.next + 1]
            && N.Taken(l.native) + [fragment] <= Wire(started, size)
  {
    assert head.fragments[..head.next + 1] == head.fragments[..head.next] + [fragment];
    assert Progress(l) == l.sender.writes[0].next;
    WireSnoc(l.finished, head.frame, size);
    if head.next == 0 { assert N.Taken(l.native) == Wire(l.finished, size); }
  }

  lemma LearnKeeps(l: Link, size: nat)
    requires Inv(l, size)
    ensures Inv(LearnStep(l), size)
  {
    if l.reply.Some? {
      B.FinishKeeps(l.sender, size, B.MAX_QUEUED_BYTES, l.reply.value);
      if l.sender.open && l.reply.value == B.Submitted {
        assert B.WriteSound(l.sender.writes[0], size);
        LearnedOnWire(l, size);
      } else {
        LearnedRefusal(l, size);
      }
    }
  }

  lemma LearnedRefusal(l: Link, size: nat)
    requires OnWire(l, size) && l.reply.Some? && (l.sender.open ==> l.reply.value != B.Submitted)
    ensures OnWire(LearnStep(l), size)
  {
  }

  // Learning that a fragment was taken moves the same fragments from "answered" to
  // "submitted", and a frame from "under way" to "finished".
  lemma LearnedOnWire(l: Link, size: nat)
    requires OnWire(l, size) && B.AllSound(l.sender.writes, size)
    requires l.sender.open && l.reply == Some(B.Submitted) && l.sender.writes != []
    requires l.sender.awaiting == Some(l.sender.writes[0].id) && B.WriteSound(l.sender.writes[0], size)
    ensures OnWire(LearnStep(l), size)
  {
    var w := l.sender.writes[0];
    if w.next + 1 == |w.fragments| {
      LearnedLast(l, size);
    } else {
      assert LearnStep(l).sender.writes[0] == w.(next := w.next + 1);
    }
  }

  lemma LearnedLast(l: Link, size: nat)
    requires OnWire(l, size) && B.AllSound(l.sender.writes, size)
    requires l.sender.open && l.reply == Some(B.Submitted) && l.sender.writes != []
    requires l.sender.awaiting == Some(l.sender.writes[0].id) && B.WriteSound(l.sender.writes[0], size)
    requires l.sender.writes[0].next + 1 == |l.sender.writes[0].fragments|
    ensures OnWire(LearnStep(l), size)
  {
    var w := l.sender.writes[0];
    assert w.fragments[..|w.fragments|] == w.fragments;
    WireSnoc(l.finished, w.frame, size);
    var l' := LearnStep(l);
    assert l'.sender.writes == l.sender.writes[1..];
    if |l.sender.writes| > 1 { assert l'.sender.writes[0] == l.sender.writes[1] && l.sender.writes[1].next == 0; }
  }

  lemma NotificationKeeps(l: Link, size: nat, success: bool, platform: bool)
    requires Inv(l, size) && l.native.inFlight
    ensures Inv(l.(native := N.Acknowledged(l.native, success, platform)), size)
  {
    N.AcknowledgedKeeps(l.native, success, platform);
    var native := N.Acknowledged(l.native, success, platform);
    assert l.native.known;
    if !native.known { assert N.Taken(native) == native.handed; }
  }

  lemma StepKeeps(size: nat, l: Link, e: Event)
    requires Inv(l, size)
    ensures Inv(Step(size, l, e), size)
  {
    match e
    case Writes(frame, priority) => WritesKeeps(l, size, frame, priority);
    case Submits(platform) => SubmitKeeps(l, size, platform);
    case Learns => LearnKeeps(l, size);
    case NotificationSent(success, platform) => if l.native.inFlight { NotificationKeeps(l, size, success, platform); }
    case Delivers(now) => DeliversKeeps(l, size, now);
    case Fails => FailsKeeps(l, size);
  }

  lemma DeliversKeeps(l: Link, size: nat, now: nat)
    requires Inv(l, size)
    ensures Inv(DeliverStep(l, now), size)
  {
    var l' := DeliverStep(l, now);
    assert l'.sender == l.sender && l'.native == l.native && l'.reply == l.reply;
    assert l'.started == l.started && l'.finished == l.finished;
  }

  lemma FailsKeeps(l: Link, size: nat)
    requires Inv(l, size)
    ensures Inv(Step(size, l, Fails), size)
  {
    B.LinkDownKeeps(l.sender, size, B.MAX_QUEUED_BYTES);
  }

  // ---------- the receiver ----------

  lemma {:induction false} StreamSnoc(frames: seq<seq<Byte>>, frame: seq<Byte>, size: nat)
    requires size > 0
    ensures Stream(frames + [frame], size) == Stream(frames, size) + Split(frame, size)
  {
    if frames == [] {
      assert [frame][1..] == [];
      assert frames + [frame] == [frame];
      assert Stream([frame], size) == Split(frame, size) + Stream([], size);
    } else {
      assert (frames + [frame])[1..] == frames[1..] + [frame];
      StreamSnoc(frames[1..], frame, size);
    }
  }

  // The wire carries exactly the encoded fragments of the started frames.
  lemma {:induction false} WireIsStream(frames: seq<seq<Byte>>, size: nat)
    requires size > 0 && Frames(frames, size)
    ensures |Wire(frames, size)| == |Stream(frames, size)|
    ensures forall i :: 0 <= i < |Wire(frames, size)| ==>
              Stream(frames, size)[i].Valid() && Wire(frames, size)[i] == Encode(Stream(frames, size)[i])
  {
    if frames != [] {
      var front, last := frames[..|frames| - 1], frames[|frames| - 1];
      assert frames == front + [last];
      WireIsStream(front, size);
      StreamSnoc(front, last, size);
      B.SplitValid(last, size);
    }
  }

  // The receiver has been fed the first fragments of the started frames.
  ghost predicate Fed(l: Link, size: nat)
    requires size > 0
  {
    && |l.arrived| <= |l.native.handed| && |l.arrived| <= |Stream(l.started, size)|
    && (l.received, l.receiver) == Feed(IDLE, LINK_BOUNDS, Stream(l.started, size)[..|l.arrived|], l.arrived)
  }

  lemma StreamGrows(l: Link, l': Link, size: nat)
    requires size > 0 && Fed(l, size) && |l'.native.handed| >= |l.native.handed|
    requires l'.started == l.started || exists f :: l'.started == l.started + [f]
    requires l'.arrived == l.arrived && l'.received == l.received && l'.receiver == l.receiver
    ensures Fed(l', size)
  {
    if l'.started != l.started {
      var f :| l'.started == l.started + [f];
      StreamSnoc(l.started, f, size);
      assert Stream(l'.started, size)[..|l.arrived|] == Stream(l.started, size)[..|l.arrived|];
    }
  }

  lemma NextOnWire(l: Link, size: nat)
    requires size > 0 && OnWire(l, size) && Fed(l, size) && |l.arrived| < |l.native.handed|
    ensures |l.arrived| < |Stream(l.started, size)|
    ensures Decode(l.native.handed[|l.arrived|]) == Ok(Stream(l.started, size)[|l.arrived|])
  {
    var n := |l.arrived|;
    WireIsStream(l.started, size);
    assert l.native.handed[n] == N.Taken(l.native)[n] == Wire(l.started, size)[n];
    DecodeEncode(Stream(l.started, size)[n]);
  }

  lemma DeliverFed(l: Link, size: nat, now: nat)
    requires size > 0 && OnWire(l, size) && Fed(l, size)
    ensures Fed(DeliverStep(l, now), size)
  {
    var n := |l.arrived|;
    if n < |l.native.handed| {
      NextOnWire(l, size);
      FedOneMore(l, size, Stream(l.started, size)[n], now);
    }
  }

  lemma FedOneMore(l: Link, size: nat, f: Fragment, now: nat)
    requires size > 0 && Fed(l, size) && |l.arrived| < |Stream(l.started, size)| && f == Stream(l.started, size)[|l.arrived|]
    ensures var (r, receiver) := Add(l.receiver, LINK_BOUNDS, f, now);
            Feed(IDLE, LINK_BOUNDS, Stream(l.started, size)[..|l.arrived| + 1], l.arrived + [now])
            == (if r.Ok? && r.value.Some? then l.received + [r.value.value] else l.received, receiver)
  {
    var n, stream := |l.arrived|, Stream(l.started, size);
    assert stream[..n + 1] == stream[..n] + [f];
    FeedConcat(IDLE, LINK_BOUNDS, stream[..n], [f], l.arrived, [now]);
    FeedOne(l.receiver, LINK_BOUNDS, f, now);
    assert l.received + [] == l.received;
  }

  lemma HandedGrows(l: Link, size: nat, e: Event)
    requires N.Inv(l.native) && !e.Delivers?
    ensures var l' := Step(size, l, e);
            && |l'.native.handed| >= |l.native.handed|
            && (l'.started == l.started || exists f :: l'.started == l.started + [f])
            && l'.arrived == l.arrived && l'.received == l.received && l'.receiver == l.receiver
  {
    match e
    case Submits(platform) =>
      var fragment := B.Begin(l.sender).0;
      if fragment.Some? { N.SubmitKeeps(l.native, fragment.value, platform); HandedBySubmit(l.native, fragment.value, platform); }
    case NotificationSent(success, platform) => N.AcknowledgedKeeps(l.native, success, platform);
    case _ =>
  }

  lemma HandedBySubmit(n: N.Notifier, fragment: seq<Byte>, platform: bool)
    ensures n.handed <= N.Submit(n, fragment, platform).1.handed
  {
  }

  lemma {:induction false} RunKeeps(size: nat, events: seq<Event>)
    requires size > 0
    ensures Inv(Run(size, events), size) && Fed(Run(size, events), size)
  {
    if events == [] {
      B.EmptyInv(size, B.MAX_QUEUED_BYTES);
    } else {
      var l, e := Run(size, events[..|events| - 1]), events[|events| - 1];
      RunKeeps(size, events[..|events| - 1]);
      StepKeeps(size, l, e);
      if e.Delivers? {
        DeliverFed(l, size, e.now);
      } else {
        HandedGrows(l, size, e);
        StreamGrows(l, Step(size, l, e), size);
      }
    }
  }

  // In every run, whatever the backpressure, refusals, acknowledgement timing, priorities
  // and failures: the receiver hands up exactly those started frames whose fragments all
  // arrived, that fit, and that had no five-second gap inside; byte for byte, never mixed,
  // in the order their first fragments were submitted.
  lemma EndToEnd(size: nat, events: seq<Event>)
    requires size > 0
    ensures var l := Run(size, events);
            l.received == Expected(l.started, size, LINK_BOUNDS, l.arrived)
  {
    RunKeeps(size, events);
    StreamArrives(Run(size, events).started, size, LINK_BOUNDS, Run(size, events).arrived);
  }

  // Without such gaps and with frames that fit, the received frames are a prefix of the
  // started ones.
  lemma ReceivedIsPrefix(size: nat, events: seq<Event>)
    requires size > 0 && Steady(Run(size, events).arrived, 5000)
    requires forall i :: 0 <= i < |Run(size, events).started| ==> |Run(size, events).started[i]| <= 16462
    ensures Run(size, events).received <= Run(size, events).started
  {
    EndToEnd(size, events);
    PromptArrivalsArePrefix(Run(size, events).started, size, LINK_BOUNDS, Run(size, events).arrived);
  }

  // The bounds of both queues hold in every run, and every accepted frame is accounted
  // for: it waits in the queue, was submitted whole, or failed with the link.
  lemma QueuesBounded(size: nat, events: seq<Event>, id: nat)
    requires size > 0
    ensures var l := Run(size, events);
            && 0 <= l.sender.queued <= 262144
            && |l.native.queue| <= 64 && (l.native.inFlight <==> l.native.queue != [])
            && (id < l.sender.nextId <==> id in l.sender.fates)
            && (id in l.sender.fates && l.sender.fates[id] == B.Waiting <==> id in B.Ids(l.sender.writes))
  {
    RunKeeps(size, events);
    QueuedNonNegative(Run(size, events).sender.writes);
  }

  lemma QueuedNonNegative(writes: seq<B.Write>)
    ensures B.QueuedBytes(writes) >= 0
  {
  }
}
