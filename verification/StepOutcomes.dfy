/**
 What single events bring about at a source, at a destination and in a committed view:
 the progress that safety over runs does not speak of.
 */
module StepOutcomes {
  import opened Types
  import opened RelayTable
  import opened RelayController
  import MR = MemberRouter
  import opened Dedup
  import opened RoutedDelivery

  // ---------- the source ----------

  // A live send with an open handle.
  predicate OpenSend(q: Peer, op: Operation) {
    op.id in q.sends.live && q.sends.live[op.id] == op && op.id in q.handles && !q.handles[op.id].Terminal()
  }

  // The send ended with this state; every other send and handle is as before.
  ghost predicate Settled(q: Peer, q': Peer, op: Operation, state: SendState) {
    && MR.OnlyRemoves(q.sends, q'.sends, op.id)
    && q'.handles == q.handles[op.id := state]
    && q' == q.(sends := q'.sends, handles := q'.handles)
  }

  // What an arrived signal says about the operation, if it may say it.
  function Verdict(op: Operation, coordinator: PeerId, m: Message): Option<SendState> {
    match m
    case DeliveryAck(from, _, receipt) =>
      if from == coordinator && receipt == Receipt(MessageKey(op.source, op.id), op.destination) && op.mode == ReliableAcked
      then Some(RemoteAcknowledged) else None
    case RouteStatus(from, _, signal) =>
      if from != coordinator || signal.key != MessageKey(op.source, op.id) || signal.destination != op.destination then None
      else if signal.status != SentToDestinationTransport then Some(Failed)
      else if op.mode == ReliableOrdered then Some(SentToTransport) else None
    case _ => None
  }

  function SignalledId(m: Message): Option<GroupMessageId> {
    match m
    case DeliveryAck(_, _, receipt) => Some(receipt.key.id)
    case RouteStatus(_, _, signal) => Some(signal.key.id)
    case _ => None
  }

  // A signal that names an open send settles it when it comes from the coordinator and
  // fits the operation, and changes nothing otherwise.
  lemma SignalSettles(sys: System, p: PeerId, m: Message, op: Operation)
    requires p in sys.peers && m in sys.net && SignalledId(m) == Some(op.id) && m.to == p
    requires OpenSend(sys.peers[p], op)
    ensures var (sys', verdict) := (SignalArrivesStep(sys, p, m, Done), Verdict(op, sys.peers[p].coordinator, m));
            && (verdict.None? ==> sys' == sys)
            && (verdict.Some? ==>
                  p in sys'.peers && sys' == sys.(peers := sys.peers[p := sys'.peers[p]])
                  && Settled(sys.peers[p], sys'.peers[p], op, verdict.value))
  {
    var q := sys.peers[p];
    if m.DeliveryAck? {
      MR.LiveSignalDecided(q.sends, ViewOf(p, q), op, m.from, m.receipt.key.source, m.receipt.destination, RelayQueueFull);
    } else {
      MR.LiveSignalDecided(q.sends, ViewOf(p, q), op, m.from, m.signal.key.source, m.signal.destination, m.signal.status);
    }
  }

  // The source hop of an open acknowledged send runs out of retries: the send fails.
  lemma SourceTimeoutFails(cfg: Config, sys: System, p: PeerId, hop: nat, op: Operation, reach: Reach)
    requires p in sys.peers && OpenSend(sys.peers[p], op) && op.mode == ReliableAcked
    requires hop in sys.peers[p].hops && sys.peers[p].hops[hop].key.id == op.id && !sys.peers[p].hops[hop].finalHop
    ensures var (sys', q) := (HopTimesOutStep(cfg, sys, p, hop, reach), sys.peers[p]);
            && p in sys'.peers && sys'.net == sys.net && hop !in sys'.peers[p].hops
            && Settled(q.(hops := WithoutHop(q.hops, hop)), sys'.peers[p], op, Failed)
  {
  }

  // The generic ACK of a source hop, or of a final hop whose authority was lost, ends the
  // wait for it and nothing else.
  lemma AckEndsWait(cfg: Config, sys: System, p: PeerId, m: Message, reach: Reach)
    requires p in sys.peers && m in sys.net && m.GenericAck? && m.to == p && m.hop in sys.peers[p].hops && sys.peers[p].hops[m.hop].peer == m.from
    requires !sys.peers[p].hops[m.hop].finalHop || sys.peers[p].coordinator != p
    ensures var (sys', q) := (AckArrivesStep(cfg, sys, p, m, reach), sys.peers[p]);
            && p in sys'.peers && sys'.net == sys.net && sys' == sys.(peers := sys.peers[p := q.(hops := sys'.peers[p].hops)])
            && (forall h :: h in sys'.peers[p].hops <==> h in q.hops && h != m.hop)
            && (forall h :: h in sys'.peers[p].hops ==> sys'.peers[p].hops[h] == q.hops[h])
  {
    assert sys.net + {} == sys.net;
  }

  // A send call names the operation, and then registers and queues it, or fails it: a
  // member without a ready route, or without room, fails the handle at once.
  lemma MemberOriginates(cfg: Config, sys: System, p: PeerId, d: PeerId, mode: DeliveryMode, priority: SendPriority, bytes: seq<Byte>,
                         ready: bool, reach: Reach)
    requires p in sys.peers && sys.peers[p].open && d != p && {p, d} <= sys.peers[p].members && sys.peers[p].coordinator != p
    ensures var (sys', q) := (OriginateStep(cfg, sys, p, d, mode, priority, bytes, ready, reach), sys.peers[p]);
            var op := Operation(p, d, q.nextId, mode, priority, bytes);
            var room := |q.sends.live| + |q.sends.tombstones| < cfg.caps.tombstones && |q.sends.live| < cfg.caps.sends;
            && p in sys'.peers && sys'.net == sys.net && sys'.issued == sys.issued[MessageKey(p, q.nextId) := op]
            && (ready && room && q.nextId !in q.sends.live ==>
                  sys'.peers[p] == q.(nextId := q.nextId + 1, handles := q.handles[q.nextId := Transmitting],
                                      sends := q.sends.(live := q.sends.live[q.nextId := op]),
                                      passes := q.passes + [Pass(q.coordinator, [op], true)]))
            && (!ready || !room ==> sys'.peers[p] == q.(nextId := q.nextId + 1, handles := q.handles[q.nextId := Failed]))
  {
    var q := sys.peers[p];
    MR.BeginDecided(q.sends, cfg.caps, ViewOf(p, q), Operation(p, d, q.nextId, mode, priority, bytes));
  }

  // The operation of a coordinator's own send, named and routed, and of no relay yet.
  ghost predicate OwnNew(sys: System, p: PeerId, op: Operation) {
    && p in sys.peers && op.source == p && op.id in sys.peers[p].handles && sys.peers[p].handles[op.id] == Transmitting
    && Routes(op, sys.peers[p].members, p) && UniqueKeys(sys.peers[p].relays)
    && forall r :: r in sys.peers[p].relays ==> r.Key() != op.Key()
  }

  predicate Fits(cfg: Config, q: Peer, op: Operation) {
    Bytes(q.relays, op.destination) + |op.bytes| <= cfg.maxBytes && Messages(q.relays, op.destination) < cfg.maxMessages
  }

  // A coordinator's own send: without a ready destination or without room it fails at once;
  // otherwise it is retained, and goes out when no older own relay to the destination is.
  lemma CoordinatorOriginates(cfg: Config, sys: System, p: PeerId, op: Operation, ready: bool)
    requires p in sys.peers && sys.peers[p].open && sys.peers[p].coordinator == p && op.source == p && op.id == sys.peers[p].nextId
    requires op.destination != p && {p, op.destination} <= sys.peers[p].members
    requires UniqueKeys(sys.peers[p].relays) && forall r :: r in sys.peers[p].relays ==> r.Key() != op.Key()
    ensures var (sys', q) := (OriginateStep(cfg, sys, p, op.destination, op.mode, op.priority, op.bytes, ready, Done), sys.peers[p]);
            p in sys'.peers && OwnSendOutcome(sys, sys', p, op, ready && Fits(cfg, q, op))
  {
    var q := sys.peers[p];
    var named := Named(sys, p, op);
    assert named.peers[p] == q.(nextId := op.id + 1, handles := q.handles[op.id := Transmitting]);
    assert Fits(cfg, named.peers[p], op) <==> Fits(cfg, q, op);
    if ready && Fits(cfg, q, op) { OwnTaken(cfg, named, p, op); } else { OwnRefused(cfg, named, p, op, ready); }
  }

  ghost predicate OwnSendOutcome(sys: System, sys': System, p: PeerId, op: Operation, taken: bool)
    requires p in sys.peers && p in sys'.peers
  {
    var (q, q') := (sys.peers[p], sys'.peers[p]);
    && q'.nextId == op.id + 1
    && (!taken ==> sys'.net == sys.net && q'.relays == q.relays && q'.handles == q.handles[op.id := Failed])
    && (taken ==>
          && q'.relays == q.relays + [Relay(op, sys.nextHop, |op.bytes|)] && q'.handles == q.handles[op.id := Transmitting]
          && (var alone := forall r :: r in q.relays ==> r.op.source != p || r.op.destination != op.destination;
              && sys'.net == sys.net + (if alone then {Reliable(p, op.destination, sys.nextHop, op)} else {})
              && q'.hops == (if alone && op.mode == ReliableAcked then q.hops[sys.nextHop := Hop(op.Key(), op.destination, true)] else q.hops)))
  }

  lemma OwnRefused(cfg: Config, sys: System, p: PeerId, op: Operation, ready: bool)
    requires OwnNew(sys, p, op) && !(ready && Fits(cfg, sys.peers[p], op))
    ensures var (sys', q) := (OriginateAsCoordinator(cfg, sys, p, op, ready, Done), sys.peers[p]);
            p in sys'.peers && sys'.net == sys.net && sys'.peers[p] == q.(handles := q.handles[op.id := Failed])
  {
    AdmissionDecided(sys.peers[p].relays, LimitsOf(cfg, p), Relay(op, sys.nextHop, |op.bytes|), sys.peers[p].members, ready);
  }

  lemma OwnTaken(cfg: Config, sys: System, p: PeerId, op: Operation)
    requires OwnNew(sys, p, op) && Fits(cfg, sys.peers[p], op)
    ensures var (sys', q) := (OriginateAsCoordinator(cfg, sys, p, op, true, Done), sys.peers[p]);
            var alone := forall r :: r in q.relays ==> r.op.source != p || r.op.destination != op.destination;
            && p in sys'.peers && sys'.peers[p].nextId == q.nextId
            && sys'.peers[p].relays == q.relays + [Relay(op, sys.nextHop, |op.bytes|)] && sys'.peers[p].handles == q.handles
            && sys'.peers[p].hops
               == (if alone && op.mode == ReliableAcked then q.hops[sys.nextHop := Hop(op.Key(), op.destination, true)] else q.hops)
            && sys'.net == sys.net + (if alone then {Reliable(p, op.destination, sys.nextHop, op)} else {})
  {
    AdmissionDecided(sys.peers[p].relays, LimitsOf(cfg, p), Relay(op, sys.nextHop, |op.bytes|), sys.peers[p].members, true);
  }

  // When the forward of a coordinator's own new send cannot be submitted, the send call
  // fails its handle, and the relay stays.
  lemma OwnForwardFails(cfg: Config, sys: System, p: PeerId, op: Operation, reach: Reach)
    requires OwnNew(sys, p, op) && Fits(cfg, sys.peers[p], op) && (reach == AckFails || reach == SendFails)
    requires forall r :: r in sys.peers[p].relays ==> r.op.source != p || r.op.destination != op.destination
    ensures var (sys', q) := (OriginateAsCoordinator(cfg, sys, p, op, true, reach), sys.peers[p]);
            && p in sys'.peers && sys'.net == sys.net && sys'.peers[p].handles == q.handles[op.id := Failed]
            && sys'.peers[p].relays == q.relays + [Relay(op, sys.nextHop, |op.bytes|)]
  {
    AdmissionDecided(sys.peers[p].relays, LimitsOf(cfg, p), Relay(op, sys.nextHop, |op.bytes|), sys.peers[p].members, true);
  }

  // A cancellation ends the send, its handle and every wait for its hops.
  lemma CancelEnds(cfg: Config, sys: System, p: PeerId, id: GroupMessageId, sessions: set<nat>)
    requires p in sys.peers && id in sys.peers[p].handles && !sys.peers[p].handles[id].Terminal()
    ensures var (sys', q) := (CancelStep(cfg, sys, p, id, sessions), sys.peers[p]);
            && p in sys'.peers && sys'.net == sys.net && sys'.peers[p].handles == q.handles[id := Cancelled]
            && (forall k :: k in sys'.peers[p].sends.live <==> k in q.sends.live && k != id)
            && (forall h :: h in sys'.peers[p].hops <==> h in q.hops && q.hops[h].key != MessageKey(p, id))
            && sys'.peers[p].relays == q.relays && sys'.peers[p].passes == q.passes
  {
  }

  // The next submission of a loop puts the operation on the wire under a new MessageId; an
  // acknowledged one is then waited for.
  lemma SubmissionGoesOut(sys: System, p: PeerId, k: nat)
    requires p in sys.peers && k < |sys.peers[p].passes| && sys.peers[p].passes[k].rest != []
    ensures var (sys', q) := (SubmitsStep(sys, p, k, true), sys.peers[p]);
            var (pass, op) := (q.passes[k], q.passes[k].rest[0]);
            && p in sys'.peers && sys'.net == sys.net + {Reliable(p, pass.to, sys.nextHop, op)} && sys'.nextHop == sys.nextHop + 1
            && sys'.peers[p].passes == q.passes[k := pass.(rest := pass.rest[1..])]
            && sys'.peers[p].sends == q.sends && sys'.peers[p].handles == q.handles
            && sys'.peers[p].hops == (if op.mode == ReliableAcked then q.hops[sys.nextHop := Hop(MessageKey(op.source, op.id), pass.to, false)] else q.hops)
  {
  }

  // A submission that fails ends its loop; only in the send call itself does it fail the
  // handle, and the send stays live.
  lemma FailedSubmissionEnds(sys: System, p: PeerId, k: nat)
    requires p in sys.peers && k < |sys.peers[p].passes| && sys.peers[p].passes[k].rest != []
    ensures var (sys', q) := (SubmitsStep(sys, p, k, false), sys.peers[p]);
            var (pass, id) := (q.passes[k], q.passes[k].rest[0].id);
            && p in sys'.peers && sys'.net == sys.net && sys'.peers[p].passes == q.passes[k := pass.(rest := [])]
            && sys'.peers[p].sends == q.sends
            && sys'.peers[p].handles
               == (if pass.first && id in q.handles && !q.handles[id].Terminal() then q.handles[id := Failed] else q.handles)
  {
  }

  // ---------- the destination ----------

  // A complete hop from the coordinator of this destination, by what the cache of its
  // router holds: new is accepted and answered, known is only answered, a collision nothing.
  lemma HopIsTaken(cfg: Config, sys: System, p: PeerId, m: Message, ready: bool)
    requires p in sys.peers && sys.peers[p].open && m in sys.net && m.Reliable? && m.to == p
    requires sys.peers[p].coordinator == m.from != p && m.from in sys.peers[p].members
    requires m.op.destination == p && m.op.source in sys.peers[p].members && m.op.source != p
    ensures var (sys', q, op) := (ReceiveStep(cfg, sys, p, m, ready, Done), sys.peers[p], m.op);
            var view := Some(Committing(q.coordinator, q.members));
            var cache := if q.routedIn == view then q.routed else [];
            var known := exists x :: x in cache && x.source == op.source && x.id == op.id;
            && p in sys'.peers
            && (!known ==>
                  && sys'.peers[p].handoff == q.handoff + [op] && op in sys'.peers[p].routed
                  && sys'.net == sys.net + (if op.mode == ReliableAcked then {GenericAck(p, m.from, m.hop)} else {}))
            && (known ==> sys'.peers[p].handoff == q.handoff)
            && (known && (forall x :: x in cache && x.source == op.source && x.id == op.id ==> x == op) ==>
                  sys'.net == sys.net + (if op.mode == ReliableAcked then {GenericAck(p, m.from, m.hop)} else {}))
            && (known && (forall x :: x in cache && x.source == op.source && x.id == op.id ==> x != op) ==> sys'.net == sys.net)
            && sys'.peers[p].routedIn == view
  {
    var cache := if sys.peers[p].routedIn == Some(Committing(sys.peers[p].coordinator, sys.peers[p].members)) then sys.peers[p].routed else [];
    NewIsCached(cache, m.op);
  }

  lemma NewIsCached(cache: seq<Operation>, op: Operation)
    ensures Accept(cache, DEDUP_WINDOW, op).0 == Ok(true) ==> op in Accept(cache, DEDUP_WINDOW, op).1
  {
    var grown := cache + [op];
    assert grown[|grown| - 1] == op && (|grown| > 1 ==> grown[1..][|grown| - 2] == op);
  }

  // When the generic ACK of a new acknowledged hop cannot be submitted, the operation stays
  // accepted by the router and is never handed over.
  lemma UnansweredHopIsSwallowed(cfg: Config, sys: System, p: PeerId, m: Message, ready: bool)
    requires p in sys.peers && sys.peers[p].open && m in sys.net && m.Reliable? && m.to == p
    requires sys.peers[p].coordinator == m.from != p && m.from in sys.peers[p].members && m.op.mode == ReliableAcked
    requires m.op.destination == p && m.op.source in sys.peers[p].members && m.op.source != p
    requires sys.peers[p].routedIn != Some(Committing(sys.peers[p].coordinator, sys.peers[p].members))
    ensures var (sys', q) := (ReceiveStep(cfg, sys, p, m, ready, AckFails), sys.peers[p]);
            && p in sys'.peers && sys'.net == sys.net && sys'.peers[p].handoff == q.handoff
            && sys'.peers[p].swallowed == q.swallowed + {m.op} && m.op in sys'.peers[p].routed
  {
    NewIsCached([], m.op);
  }

  // A hop of the immediately previous coordinator is answered and nothing else happens.
  lemma StaleHopIsAnswered(sys: System, p: PeerId, m: Message)
    requires p in sys.peers && m in sys.net && m.Reliable? && m.to == p && m.op.destination == p
    ensures var (sys', q) := (ReceiveStaleStep(sys, p, m), sys.peers[p]);
            var stale := q.previous == Some(m.from) && q.coordinator != m.from && m.op.mode == ReliableAcked;
            sys' == sys.(net := sys.net + (if stale then {GenericAck(p, m.from, m.hop)} else {}))
  {
    assert sys.peers[p := sys.peers[p]] == sys.peers;
    assert sys.net + {} == sys.net;
  }

  // The session takes the oldest operation handed over: it delivers it exactly when it is
  // open, the source is another member and the pair is not in its window.
  lemma SessionTakes(sys: System, p: PeerId)
    requires p in sys.peers && sys.peers[p].handoff != []
    ensures var (sys', q, op) := (HandOffStep(sys, p), sys.peers[p], sys.peers[p].handoff[0]);
            var known := exists x :: x in q.session && x.source == op.source && x.id == op.id;
            var accepts := q.open && op.source in q.members && op.source != p;
            && p in sys'.peers && sys'.net == sys.net && sys'.peers[p].handoff == q.handoff[1..]
            && sys'.peers[p].delivered == (if accepts && !known then q.delivered + [op] else q.delivered)
            && (!accepts ==> sys'.peers[p].dropped == q.dropped + {op} && sys'.peers[p].session == q.session)
            && (accepts && !known ==> sys'.peers[p].dropped == q.dropped)
            && (accepts && known && (forall x :: x in q.session && x.source == op.source && x.id == op.id ==> x == op) ==>
                  sys'.peers[p] == q.(handoff := q.handoff[1..]))
            && (accepts && known && (forall x :: x in q.session && x.source == op.source && x.id == op.id ==> x != op) ==>
                  sys'.peers[p] == q.(handoff := q.handoff[1..], dropped := q.dropped + {op}))
  {
  }

  // ---------- failed submissions ----------

  // When the generic ACK of a source hop cannot be submitted, nothing after it happens;
  // when a later submission fails, or the forward finds no ready destination, everything
  // but the forward does. What the table retains stays decided, and a forward without a
  // destination is marked to fail.
  lemma FailedSubmissionCuts(sys: System, c: PeerId, from: PeerId, outcome: Outcome, local: Option<GroupMessageId>, reach: Reach)
    requires c in sys.peers && outcome.result.Ok? && reach != Done
    ensures var (sys', q, a) := (Apply(sys, c, from, outcome, local, reach), sys.peers[c], outcome.result.value);
            && c in sys'.peers && sys'.peers[c].relays == outcome.relays && sys'.peers[c].hops == q.hops
            && (reach == AckFails && a.sourceHopAck.Some? ==>
                  sys'.net == sys.net && sys'.peers[c].handoff == q.handoff && sys'.peers[c].handles == q.handles)
            && (!(reach == AckFails && a.sourceHopAck.Some?) ==>
                  && sys'.peers[c].handoff == (if a.deliver.Some? then q.handoff + [a.deliver.value] else q.handoff)
                  && sys'.net == sys.net
                       + (if a.sourceHopAck.Some? then {GenericAck(c, from, a.sourceHopAck.value)} else {})
                       + (if a.deliveryAck.Some? then {DeliveryAck(c, a.deliveryAck.value.key.source, a.deliveryAck.value)} else {})
                       + (if a.relayStatus.Some? then {RouteStatus(c, a.relayStatus.value.key.source, a.relayStatus.value)} else {}))
            && sys'.peers[c].failing == (if reach == Unready && a.forward.Some? then q.failing + {a.forward.value.hop} else q.failing)
  {
  }

  // ---------- the committed view ----------

  // A committed view is adopted by an open member of it: the former coordinator is
  // remembered, and a peer that no longer coordinates releases its relays.
  lemma CommitAdopts(sys: System, p: PeerId, c: PeerId, members: set<PeerId>)
    requires p in sys.peers && sys.peers[p].open && {p, c} <= members
    ensures var (sys', q) := (CommitStep(sys, p, c, members), sys.peers[p]);
            && p in sys'.peers && sys'.net == sys.net
            && sys'.peers[p].coordinator == c && sys'.peers[p].members == members
            && sys'.peers[p].previous == (if c == q.coordinator then q.previous else Some(q.coordinator))
            && sys'.peers[p].relays == (if q.coordinator == p && c != p then [] else q.relays)
            && sys'.peers[p].hops == q.hops && sys'.peers[p].sends == q.sends && sys'.peers[p].handles == q.handles
  {
  }

  // Leaving closes the session and changes nothing else; a hop that is dropped is waited
  // for no longer, and nobody is told.
  lemma LeavingAndDropping(sys: System, p: PeerId, h: nat)
    requires p in sys.peers && h in sys.peers[p].hops
    ensures LeaveStep(sys, p) == sys.(peers := sys.peers[p := sys.peers[p].(open := false)])
    ensures var sys' := HopDroppedStep(sys, p, h);
            && p in sys'.peers && sys' == sys.(peers := sys.peers[p := sys.peers[p].(hops := sys'.peers[p].hops)])
            && (forall k :: k in sys'.peers[p].hops <==> k in sys.peers[p].hops && k != h)
            && (forall k :: k in sys'.peers[p].hops ==> sys'.peers[p].hops[k] == sys.peers[p].hops[k])
  {
    assert sys.net + {} == sys.net;
  }

  // A reroute queues the whole of every live send it takes, for the new coordinator; after
  // a change of authority no earlier source hop is waited for, after a reconnection all are.
  lemma RerouteQueues(sys: System, p: PeerId, order: seq<GroupMessageId>, onlyOrdered: bool)
    requires p in sys.peers && sys.peers[p].coordinator != p
    requires forall i, j :: 0 <= i < j < |order| ==> order[i] != order[j]
    requires forall id :: id in order <==> id in sys.peers[p].sends.live && (onlyOrdered ==> sys.peers[p].sends.live[id].mode == ReliableOrdered)
    ensures var (sys', q) := (RerouteBeginsStep(sys, p, order, onlyOrdered), sys.peers[p]);
            && p in sys'.peers && sys'.net == sys.net && sys'.peers[p].sends == q.sends
            && |sys'.peers[p].passes| == |q.passes| + 1 && sys'.peers[p].passes[..|q.passes|] == q.passes
            && (var pass := sys'.peers[p].passes[|q.passes|];
                && pass.to == q.coordinator && !pass.first && |pass.rest| == |order|
                && forall i :: 0 <= i < |order| ==> pass.rest[i] == q.sends.live[order[i]])
            && (forall h :: h in sys'.peers[p].hops <==> h in q.hops && (onlyOrdered || q.hops[h].finalHop))
  {
  }
}
