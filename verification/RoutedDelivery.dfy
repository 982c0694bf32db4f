/**
 Routed reliable delivery across any number of peers. Every peer can be a source, the
 coordinator it believes in, a former coordinator, and a destination; every peer changes
 its committed coordinator and membership at its own moments. The network keeps every
 message ever submitted, and any submitted message can arrive at any time, any number of
 times or never: this covers loss, whole-hop retransmission, RESUME and reordering.
 */
module RoutedDelivery {
  import opened Types
  import opened RelayTable
  import opened RelayController
  import MR = MemberRouter
  import opened Dedup

  // ---------- state ----------

  // A submitted ACK-required hop that waits for its generic ACK.
  datatype Hop = Hop(key: MessageKey, peer: PeerId, finalHop: bool)

  datatype Message =
    | Reliable(from: PeerId, to: PeerId, hop: nat, op: Operation)
    | GenericAck(from: PeerId, to: PeerId, hop: nat)
    | DeliveryAck(from: PeerId, to: PeerId, receipt: Receipt)
    | RouteStatus(from: PeerId, to: PeerId, signal: Signal)

  // A loop that submits operations one after the other to a coordinator; `first` marks the
  // submission that belongs to the send call itself.
  datatype Pass = Pass(to: PeerId, rest: seq<Operation>, first: bool)

  datatype Committing = Committing(coordinator: PeerId, members: set<PeerId>)

  datatype Peer = Peer(
    coordinator: PeerId,
    previous: Option<PeerId>,
    members: set<PeerId>,
    open: bool,
    sends: MR.Sends,
    nextId: nat,
    handles: map<GroupMessageId, SendState>,
    passes: seq<Pass>,
    relays: seq<Relay>,
    hops: map<nat, Hop>,
    failing: set<nat>,            // final hops whose forward found no ready destination
    routedIn: Option<Committing>, // the committed view the destination router was made for
    routed: seq<Operation>,       // its cache
    swallowed: set<Operation>,    // accepted by the router, never handed to the session
    handoff: seq<Operation>,      // handed over, not yet taken by the session
    session: seq<Operation>,      // the session's cache, one per GroupSession
    delivered: seq<Operation>,    // every delivery event of the session, in order
    dropped: set<Operation>)      // handed to the session, which refused

  // What a pairwise MessageId was allocated for.
  datatype Binding = Binding(op: Operation, finalHop: bool)

  datatype System = System(
    peers: map<PeerId, Peer>,
    net: set<Message>,
    bound: map<nat, Binding>,
    nextHop: nat,
    issued: map<MessageKey, Operation>)

  datatype Config = Config(maxBytes: nat, maxMessages: nat, caps: MR.Caps)

  // The operation was handed to the destination's session.
  predicate HandedOver(q: Peer, op: Operation) {
    op in q.delivered || op in q.handoff || op in q.dropped
  }

  // The destination has accepted the operation: its generic ACK says no more than this.
  predicate Accepted(q: Peer, op: Operation) { HandedOver(q, op) || op in q.swallowed }

  predicate Committed(sys: System, op: Operation) {
    op.destination in sys.peers && Accepted(sys.peers[op.destination], op)
  }

  function LimitsOf(cfg: Config, c: PeerId): Limits { Limits(c, cfg.maxBytes, cfg.maxMessages) }

  function ViewOf(p: PeerId, q: Peer): MR.View { MR.View(p, q.coordinator, q.members) }

  // ---------- steps of one peer ----------

  // A handle takes its first terminal state and keeps it.
  function Complete(q: Peer, id: GroupMessageId, state: SendState): Peer {
    if id in q.handles && !q.handles[id].Terminal() then q.(handles := q.handles[id := state]) else q
  }

  // GroupSession.receiveReliable: the session's own check, cache and delivery event.
  function Deliver(q: Peer, self: PeerId, op: Operation): Peer {
    if op.source == self || !q.open || op.source !in q.members then q.(dropped := q.dropped + {op})
    else
      match Accept(q.session, DEDUP_WINDOW, op)
      case (Ok(true), cache) => q.(session := cache, delivered := q.delivered + [op])
      case (Ok(false), _) => q
      case (Err(_), _) => q.(dropped := q.dropped + {op})
  }

  // A local delivery is only queued for the session; the actions after it do not wait.
  function Delivering(q: Peer, a: Actions): Peer {
    if a.deliver.Some? then q.(handoff := q.handoff + [a.deliver.value]) else q
  }

  function Completing(q: Peer, a: Actions, local: Option<GroupMessageId>): Peer {
    if a.localState.Some? && local.Some? then Complete(q, local.value, a.localState.value) else q
  }

  function Forwarding(q: Peer, a: Actions): Peer {
    if a.forward.Some? && a.forward.value.op.mode == ReliableAcked
    then q.(hops := q.hops[a.forward.value.hop := Hop(a.forward.value.Key(), a.forward.value.op.destination, true)])
    else q
  }

  // The actions in the order the program performs them: deliver, complete, forward.
  function Performed(q: Peer, a: Actions, local: Option<GroupMessageId>): Peer {
    Forwarding(Completing(Delivering(q, a), a, local), a)
  }

  function Emitted(c: PeerId, from: PeerId, a: Actions): set<Message> {
    (if a.sourceHopAck.Some? then {GenericAck(c, from, a.sourceHopAck.value)} else {})
    + (if a.deliveryAck.Some? then {DeliveryAck(c, a.deliveryAck.value.key.source, a.deliveryAck.value)} else {})
    + (if a.relayStatus.Some? then {RouteStatus(c, a.relayStatus.value.key.source, a.relayStatus.value)} else {})
    + (if a.forward.Some? then {Reliable(c, a.forward.value.op.destination, a.forward.value.hop, a.forward.value.op)} else {})
  }

  function With(sys: System, p: PeerId, q: Peer, messages: set<Message>): System {
    sys.(peers := sys.peers[p := q], net := sys.net + messages)
  }

  // How far a sequence of awaited submissions got: the generic ACK of a hop fails and ends
  // it, a later submission fails and ends it, the forward finds no ready destination, or
  // all are made.
  datatype Reach = AckFails | SendFails | Unready | Done

  // The actions that are still performed. A failed signal is a signal that gets lost.
  function Cut(a: Actions, reach: Reach): Actions {
    match reach
    case AckFails => if a.sourceHopAck.Some? then Actions() else a.(forward := None)
    case SendFails => a.(forward := None)
    case Unready => a.(forward := None)
    case Done => a
  }

  // The relays after an outcome; a forward without a ready destination is going to fail.
  function Releasing(q: Peer, outcome: Outcome, reach: Reach): Peer {
    q.(relays := outcome.relays,
       failing := if reach == Unready && outcome.result.Ok? && outcome.result.value.forward.Some?
                  then q.failing + {outcome.result.value.forward.value.hop} else q.failing)
  }

  // A coordinator applies an outcome: new relays, then the actions, as far as they get.
  function Apply(sys: System, c: PeerId, from: PeerId, outcome: Outcome, local: Option<GroupMessageId>, reach: Reach): System
    requires c in sys.peers
  {
    var q := Releasing(sys.peers[c], outcome, reach);
    match outcome.result
    case Err(_) => With(sys, c, q, {})
    case Ok(a) => With(sys, c, Performed(q, Cut(a, reach), local), Emitted(c, from, Cut(a, reach)))
  }

  // Allocates a fresh pairwise MessageId for one hop of `op`.
  function Bind(sys: System, op: Operation, finalHop: bool): System {
    sys.(bound := sys.bound[sys.nextHop := Binding(op, finalHop)], nextHop := sys.nextHop + 1)
  }

  // ---------- events ----------

  datatype Event =
    | Originate(source: PeerId, destination: PeerId, mode: DeliveryMode, priority: SendPriority, bytes: seq<Byte>, ready: bool,
                reach: Reach := Done)
    | RerouteBegins(source: PeerId, order: seq<GroupMessageId>, onlyOrdered: bool)
    | Submits(source: PeerId, pass: nat, submitted: bool)
    | Receive(to: PeerId, message: Message, ready: bool, reach: Reach := Done)
    | ReceiveStale(to: PeerId, message: Message)
    | HandOff(at: PeerId)
    | AckArrives(to: PeerId, message: Message, reach: Reach := Done)
    | HopTimesOut(at: PeerId, hop: nat, reach: Reach := Done)
    | HopDropped(at: PeerId, hop: nat)
    | Resumes(at: PeerId, key: MessageKey)
    | OrderedHopSubmitted(at: PeerId, key: MessageKey, reach: Reach := Done)
    | ForwardFails(at: PeerId, key: MessageKey, reach: Reach := Done)
    | DestinationGone(at: PeerId, destination: PeerId, status: RelayStatus)
    | SignalArrives(to: PeerId, message: Message, reach: Reach := Done)
    | CancelSend(source: PeerId, id: GroupMessageId, sessions: set<nat>)
    | Commit(at: PeerId, coordinator: PeerId, members: set<PeerId>)
    | Leave(at: PeerId)

  function OriginateStep(cfg: Config, sys: System, p: PeerId, destination: PeerId, mode: DeliveryMode,
                         priority: SendPriority, bytes: seq<Byte>, ready: bool, reach: Reach): System
  {
    if p !in sys.peers || !sys.peers[p].open || destination == p || destination !in sys.peers[p].members then sys
    else
      var op := Operation(p, destination, sys.peers[p].nextId, mode, priority, bytes);
      if sys.peers[p].coordinator == p then OriginateAsCoordinator(cfg, Named(sys, p, op), p, op, ready, reach)
      else OriginateAsMember(cfg, Named(sys, p, op), p, op, ready)
  }

  // The operation takes the next GroupMessageId and a transmitting handle.
  function Named(sys: System, p: PeerId, op: Operation): System
    requires p in sys.peers
  {
    var q := sys.peers[p];
    sys.(peers := sys.peers[p := q.(nextId := q.nextId + 1, handles := q.handles[op.id := Transmitting])],
         issued := sys.issued[op.Key() := op])
  }

  // An admission that throws, or a forward that fails, fails the send call.
  predicate OriginFails(outcome: Outcome, reach: Reach) {
    outcome.result.Err? || ((reach == AckFails || reach == SendFails) && outcome.result.value.forward.Some?)
  }

  function OwnOutcome(cfg: Config, sys: System, p: PeerId, op: Operation, ready: bool): Outcome
    requires p in sys.peers
  {
    var q := sys.peers[p];
    Admitted(LimitsOf(cfg, p), q.relays, Relay(op, sys.nextHop, |op.bytes|), 0, q.members, ready)
  }

  function OriginateAsCoordinator(cfg: Config, sys: System, p: PeerId, op: Operation, ready: bool, reach: Reach): System
    requires p in sys.peers
  {
    var outcome := OwnOutcome(cfg, sys, p, op, ready);
    var applied := Apply(Bind(sys, op, true), p, p, outcome, Some(op.id), reach);
    if OriginFails(outcome, reach) then With(applied, p, Complete(applied.peers[p], op.id, Failed), {}) else applied
  }

  // The send is registered; its submission is awaited.
  function OriginateAsMember(cfg: Config, sys: System, p: PeerId, op: Operation, ready: bool): System
    requires p in sys.peers
  {
    var q := sys.peers[p];
    if !ready then With(sys, p, Complete(q, op.id, Failed), {})
    else
      match MR.Begin(q.sends, cfg.caps, ViewOf(p, q), op)
      case (Err(_), _) => With(sys, p, Complete(q, op.id, Failed), {})
      case (Ok(_), sends) =>
        With(sys, p, q.(sends := sends, passes := q.passes + [Pass(q.coordinator, [op], true)]), {})
  }

  function SubmitSourceHop(sys: System, p: PeerId, to: PeerId, op: Operation): System
    requires p in sys.peers
  {
    var q := sys.peers[p];
    var hop := sys.nextHop;
    var waiting := if op.mode == ReliableAcked then q.(hops := q.hops[hop := Hop(op.Key(), to, false)]) else q;
    With(Bind(sys, op, false), p, waiting, {Reliable(p, to, hop, op)})
  }

  // The live sends that a reroute takes: all of them, or only the ordered ones.
  function Rerouted(sends: MR.Sends, onlyOrdered: bool): set<GroupMessageId> {
    set id | id in sends.live && (onlyOrdered ==> sends.live[id].mode == ReliableOrdered)
  }

  predicate Lists(order: seq<GroupMessageId>, ids: set<GroupMessageId>) {
    && (forall i :: 0 <= i < |order| ==> order[i] in ids) && (forall id :: id in ids ==> id in order)
    && (forall i, j :: 0 <= i < j < |order| ==> order[i] != order[j])
  }

  // A snapshot of the live sends, to be submitted to the committed coordinator. After a
  // change of authority the earlier attempts stop waiting; after a reconnection they stay.
  function RerouteBeginsStep(sys: System, p: PeerId, order: seq<GroupMessageId>, onlyOrdered: bool): System {
    if p !in sys.peers || sys.peers[p].coordinator == p || !Lists(order, Rerouted(sys.peers[p].sends, onlyOrdered)) then sys
    else
      var q := sys.peers[p];
      With(sys, p, q.(passes := q.passes + [Pass(q.coordinator, Snapshot(q.sends.live, order), false)],
                      hops := KeptHops(q.hops, onlyOrdered)), {})
  }

  function KeptHops(hops: map<nat, Hop>, onlyOrdered: bool): map<nat, Hop> {
    if onlyOrdered then hops else map h | h in hops && hops[h].finalHop :: hops[h]
  }

  function Snapshot(live: map<GroupMessageId, Operation>, order: seq<GroupMessageId>): (ops: seq<Operation>)
    requires forall i :: 0 <= i < |order| ==> order[i] in live
    ensures |ops| == |order| && forall i :: 0 <= i < |order| ==> ops[i] == live[order[i]]
  {
    seq(|order|, i requires 0 <= i < |order| => live[order[i]])
  }

  // The next submission of a pass: nothing asks whether the send is still live. A failure
  // ends the pass and, in a send call, fails the handle; the send stays live.
  function SubmitsStep(sys: System, p: PeerId, k: nat, submitted: bool): System {
    if p !in sys.peers || k >= |sys.peers[p].passes| || sys.peers[p].passes[k].rest == [] then sys
    else
      var q := sys.peers[p];
      var pass := q.passes[k];
      if submitted then
        SubmitSourceHop(With(sys, p, q.(passes := q.passes[k := pass.(rest := pass.rest[1..])]), {}), p, pass.to, pass.rest[0])
      else With(sys, p, Abandoned(q, k), {})
  }

  function Abandoned(q: Peer, k: nat): Peer
    requires k < |q.passes| && q.passes[k].rest != []
  {
    var pass := q.passes[k];
    var ended := q.(passes := q.passes[k := pass.(rest := [])]);
    if pass.first then Complete(ended, pass.rest[0].id, Failed) else ended
  }

  function ReceiveStep(cfg: Config, sys: System, p: PeerId, m: Message, ready: bool, reach: Reach): System {
    if p !in sys.peers || m !in sys.net || !m.Reliable? || m.to != p
       || !sys.peers[p].open || m.from !in sys.peers[p].members then sys
    else if sys.peers[p].coordinator == p then ReceiveAsCoordinator(cfg, sys, p, m, ready, reach)
    else ReceiveAsDestination(sys, p, m, reach)
  }

  function ReceiveAsCoordinator(cfg: Config, sys: System, p: PeerId, m: Message, ready: bool, reach: Reach): System
    requires p in sys.peers && m.Reliable?
  {
    var q := sys.peers[p];
    var op := m.op;
    if op.source != m.from || op.source !in q.members || op.destination !in q.members || op.destination == op.source
    then sys
    else
      Apply(Bind(sys, op, true), p, m.from,
            Admitted(LimitsOf(cfg, p), q.relays, Relay(op, sys.nextHop, |op.bytes|), m.hop, q.members, ready), None, reach)
  }

  // The destination router belongs to one committed view; the first hop that meets it
  // after a change makes a new one.
  function Routing(q: Peer): Peer {
    var view := Some(Committing(q.coordinator, q.members));
    if q.routedIn == view then q else q.(routedIn := view, routed := [])
  }

  predicate FromCoordinatorFor(q: Peer, p: PeerId, m: Message) {
    m.Reliable? && m.from == q.coordinator && m.op.source in q.members && m.op.destination == p && m.op.source != p
  }

  // The router accepts before the hop is answered, and the session is handed the operation
  // only after. When the answer cannot be submitted, the operation stays accepted only.
  function ReceiveAsDestination(sys: System, p: PeerId, m: Message, reach: Reach): System
    requires p in sys.peers && m.Reliable?
  {
    var (q, acks) := AtDestination(sys.peers[p], p, m, reach);
    With(sys, p, q, acks)
  }

  function AtDestination(before: Peer, p: PeerId, m: Message, reach: Reach): (Peer, set<Message>)
    requires m.Reliable?
  {
    var q := Routing(before);
    var answered := m.op.mode == ReliableAcked && reach != AckFails;
    var acks := if answered then {GenericAck(p, m.from, m.hop)} else {};
    if !FromCoordinatorFor(q, p, m) then (q, {})
    else
      match Accept(q.routed, DEDUP_WINDOW, m.op)
      case (Err(_), _) => (q, {})
      case (Ok(false), _) => (q, acks)
      case (Ok(true), cache) => (Taking(q.(routed := cache), m.op, reach), acks)
  }

  // What becomes of a newly accepted operation.
  function Taking(q: Peer, op: Operation, reach: Reach): Peer {
    if op.mode == ReliableAcked && reach == AckFails then q.(swallowed := q.swallowed + {op})
    else q.(handoff := q.handoff + [op])
  }

  // A complete hop of the immediately previous coordinator: answered, never delivered.
  function ReceiveStaleStep(sys: System, p: PeerId, m: Message): System {
    if p !in sys.peers || m !in sys.net || !m.Reliable? || m.to != p || m.op.destination != p
       || sys.peers[p].previous != Some(m.from) || sys.peers[p].coordinator == m.from || m.op.mode != ReliableAcked
    then sys
    else
      With(sys, p, sys.peers[p], {GenericAck(p, m.from, m.hop)})
  }

  // The peer has itself committed that another peer coordinates.
  predicate LostAuthority(sys: System, c: PeerId) { c in sys.peers ==> sys.peers[c].coordinator != c }

  function HandOffStep(sys: System, p: PeerId): System {
    if p !in sys.peers || sys.peers[p].handoff == [] then sys
    else
      var q := sys.peers[p];
      With(sys, p, Deliver(q.(handoff := q.handoff[1..]), p, q.handoff[0]), {})
  }

  function WithoutHop(hops: map<nat, Hop>, hop: nat): map<nat, Hop> { map h | h in hops && h != hop :: hops[h] }

  function AckArrivesStep(cfg: Config, sys: System, p: PeerId, m: Message, reach: Reach): System {
    if p !in sys.peers || m !in sys.net || !m.GenericAck? || m.to != p
       || m.hop !in sys.peers[p].hops || sys.peers[p].hops[m.hop].peer != m.from then sys
    else
      var q := sys.peers[p];
      var hop := q.hops[m.hop];
      var rest := With(sys, p, q.(hops := WithoutHop(q.hops, m.hop)), {});
      if !hop.finalHop || q.coordinator != p then rest
      else Apply(rest, p, p, Acknowledged(LimitsOf(cfg, p), q.relays, hop.key), Some(hop.key.id), reach)
  }

  function HopTimesOutStep(cfg: Config, sys: System, p: PeerId, hop: nat, reach: Reach): System {
    if p !in sys.peers || hop !in sys.peers[p].hops then sys
    else
      var q := sys.peers[p];
      var key := q.hops[hop].key;
      var rest := q.(hops := WithoutHop(q.hops, hop));
      if q.hops[hop].finalHop then
        if q.coordinator != p then With(sys, p, rest, {})
        else Apply(With(sys, p, rest, {}), p, p,
                   FinalHopFailure(LimitsOf(cfg, p), q.relays, key, DestinationAckTimeout), Some(key.id), reach)
      else With(sys, p, SourceTimedOut(rest, key.id), {})
  }

  // A source hop ran out of retries: a live acknowledged send fails.
  function SourceTimedOut(q: Peer, id: GroupMessageId): Peer {
    match MR.OnSourceHopTimeout(q.sends, id)
    case (Ok(Some(state)), sends) => Complete(q.(sends := sends), id, state)
    case _ => q
  }

  // A session resumes when the retries of a hop are used up: the wait ends, and nobody is
  // told.
  function HopDroppedStep(sys: System, p: PeerId, hop: nat): System {
    if p !in sys.peers || hop !in sys.peers[p].hops then sys
    else With(sys, p, sys.peers[p].(hops := WithoutHop(sys.peers[p].hops, hop)), {})
  }

  // The final hop of a relay, under the MessageId of its admission.
  function FinalHop(c: PeerId, r: Relay): Message { Reliable(c, r.op.destination, r.hop, r.op) }

  // The session of a destination resumes: an ordered head is sent from the start.
  function ResumesStep(sys: System, p: PeerId, key: MessageKey): System {
    if p !in sys.peers || sys.peers[p].coordinator != p || Find(sys.peers[p].relays, key).None? then sys
    else
      var r := Find(sys.peers[p].relays, key).value;
      if r.op.mode != ReliableOrdered || !IsHead(sys.peers[p].relays, r) then sys
      else With(sys, p, sys.peers[p], {FinalHop(p, r)})
  }

  function OrderedHopSubmittedStep(cfg: Config, sys: System, p: PeerId, key: MessageKey, reach: Reach): System {
    if p !in sys.peers || sys.peers[p].coordinator != p || Find(sys.peers[p].relays, key).None?
       || Find(sys.peers[p].relays, key).value.op.mode != ReliableOrdered
       || FinalHop(p, Find(sys.peers[p].relays, key).value) !in sys.net then sys
    else Apply(sys, p, p, Submitted(LimitsOf(cfg, p), sys.peers[p].relays, key), None, reach)
  }

  function ForwardFailsStep(cfg: Config, sys: System, p: PeerId, key: MessageKey, reach: Reach): System {
    if p !in sys.peers || sys.peers[p].coordinator != p || Find(sys.peers[p].relays, key).None?
       || Find(sys.peers[p].relays, key).value.hop !in sys.peers[p].failing then sys
    else Apply(sys, p, p, FinalHopFailure(LimitsOf(cfg, p), sys.peers[p].relays, key, DestinationUnavailable), Some(key.id), reach)
  }

  function DestinationGoneStep(sys: System, p: PeerId, d: PeerId, status: RelayStatus): System {
    if p !in sys.peers || sys.peers[p].coordinator != p then sys
    else
      var q := sys.peers[p];
      With(sys, p, q.(relays := Outside(q.relays, OnlyTo(d))),
           set r | r in Inside(q.relays, OnlyTo(d)) && r.op.source != p :: RouteStatus(p, r.op.source, SignalFor(r.op, status)))
  }

  // The send leaves the table before the signal is answered; when the answer cannot be
  // submitted, the handle is not completed.
  function SignalArrivesStep(sys: System, p: PeerId, m: Message, reach: Reach): System {
    if p !in sys.peers || m !in sys.net || !(m.DeliveryAck? || m.RouteStatus?) || m.to != p then sys
    else
      var q := sys.peers[p];
      var (r, sends) := if m.DeliveryAck? then MR.OnDeliveryAck(q.sends, ViewOf(p, q), m.from, m.receipt)
                        else MR.OnRelayStatus(q.sends, ViewOf(p, q), m.from, m.signal);
      var id := if m.DeliveryAck? then m.receipt.key.id else m.signal.key.id;
      match r
      case Ok(Applied(state)) =>
        With(sys, p, if reach == AckFails then q.(sends := sends) else Complete(q.(sends := sends), id, state), {})
      case _ => sys
  }

  function CancelStep(cfg: Config, sys: System, p: PeerId, id: GroupMessageId, sessions: set<nat>): System {
    if p !in sys.peers || id !in sys.peers[p].handles || sys.peers[p].handles[id].Terminal() then sys
    else
      var q := sys.peers[p];
      With(sys, p, q.(sends := MR.Cancel(q.sends, cfg.caps, id, sessions).1,
                      hops := map h | h in q.hops && q.hops[h].key != MessageKey(p, id) :: q.hops[h],
                      handles := q.handles[id := Cancelled]), {})
  }

  // Committing a new view. Only the relay table is released on authority loss: the final
  // hops that wait for a generic ACK keep waiting.
  function CommitStep(sys: System, p: PeerId, c: PeerId, members: set<PeerId>): System {
    if p !in sys.peers || !sys.peers[p].open || p !in members || c !in members then sys
    else
      var q := sys.peers[p];
      With(sys, p, q.(
        coordinator := c,
        previous := if c == q.coordinator then q.previous else Some(q.coordinator),
        members := members,
        relays := if q.coordinator == p && c != p then [] else q.relays), {})
  }

  function LeaveStep(sys: System, p: PeerId): System {
    if p !in sys.peers then sys else With(sys, p, sys.peers[p].(open := false), {})
  }

  function Step(cfg: Config, sys: System, e: Event): System {
    match e
    case Originate(p, d, mode, priority, bytes, ready, reach) => OriginateStep(cfg, sys, p, d, mode, priority, bytes, ready, reach)
    case RerouteBegins(p, order, onlyOrdered) => RerouteBeginsStep(sys, p, order, onlyOrdered)
    case Submits(p, k, submitted) => SubmitsStep(sys, p, k, submitted)
    case Receive(p, m, ready, reach) => ReceiveStep(cfg, sys, p, m, ready, reach)
    case ReceiveStale(p, m) => ReceiveStaleStep(sys, p, m)
    case HandOff(p) => HandOffStep(sys, p)
    case AckArrives(p, m, reach) => AckArrivesStep(cfg, sys, p, m, reach)
    case HopTimesOut(p, hop, reach) => HopTimesOutStep(cfg, sys, p, hop, reach)
    case HopDropped(p, hop) => HopDroppedStep(sys, p, hop)
    case Resumes(p, key) => ResumesStep(sys, p, key)
    case OrderedHopSubmitted(p, key, reach) => OrderedHopSubmittedStep(cfg, sys, p, key, reach)
    case ForwardFails(p, key, reach) => ForwardFailsStep(cfg, sys, p, key, reach)
    case DestinationGone(p, d, status) => DestinationGoneStep(sys, p, d, status)
    case SignalArrives(p, m, reach) => SignalArrivesStep(sys, p, m, reach)
    case CancelSend(p, id, sessions) => CancelStep(cfg, sys, p, id, sessions)
    case Commit(p, c, members) => CommitStep(sys, p, c, members)
    case Leave(p) => LeaveStep(sys, p)
  }

  function Run(cfg: Config, sys: System, events: seq<Event>): System {
    if events == [] then sys
    else Step(cfg, Run(cfg, sys, events[..|events| - 1]), events[|events| - 1])
  }

  lemma RunSnoc(cfg: Config, sys: System, events: seq<Event>, e: Event)
    ensures Run(cfg, sys, events + [e]) == Step(cfg, Run(cfg, sys, events), e)
  {
    assert (events + [e])[..|events|] == events;
  }

  lemma {:induction false} RunConcat(cfg: Config, sys: System, first: seq<Event>, second: seq<Event>)
    ensures Run(cfg, sys, first + second) == Run(cfg, Run(cfg, sys, first), second)
  {
    if second == [] {
      assert first + second == first;
    } else {
      var front := second[..|second| - 1];
      RunConcat(cfg, sys, first, front);
      assert first + second == (first + front) + [second[|second| - 1]];
      RunSnoc(cfg, sys, first + front, second[|second| - 1]);
    }
  }

  lemma RunTwo(cfg: Config, sys: System, e1: Event, e2: Event)
    ensures Run(cfg, sys, [e1, e2]) == Step(cfg, Step(cfg, sys, e1), e2)
  {
    assert [e1][..0] == [];
    assert Run(cfg, sys, [e1]) == Step(cfg, sys, e1);
    assert [e1, e2][..1] == [e1];
  }

  lemma RunOne(cfg: Config, sys: System, e: Event)
    ensures Run(cfg, sys, [e]) == Step(cfg, sys, e)
  {
    assert [e][..0] == [];
  }

  // Every peer with nothing sent, held or delivered, in any initial view.
  ghost predicate Initial(sys: System) {
    && sys.net == {} && sys.bound == map[] && sys.issued == map[]
    && (forall p :: p in sys.peers ==>
          var q := sys.peers[p];
          && q.sends == MR.Sends(map[], map[]) && q.handles == map[] && q.passes == [] && q.relays == []
          && q.hops == map[] && q.failing == {} && q.routed == [] && q.swallowed == {} && q.handoff == [] && q.session == [] && q.delivered == [] && q.dropped == {})
  }
}
