/**
 What goes wrong when a destination answers stale traffic of a former coordinator that
 still waits for the hop, and how authority can be lost before the answer and regained
 after it.
 */
module StaleTraffic {
  import opened Types
  import opened RelayTable
  import opened RelayController
  import MR = MemberRouter
  import opened RoutedDelivery
  import opened AckSoundness
  import opened RoutedGuarantees
  import opened RelayShape
  import opened Rerouting

  // A stale hop that its former coordinator sent and the destination will answer.
  ghost predicate Answerable(sys: System, d: PeerId, m: Message) {
    && d in sys.peers && m in sys.net && m.Reliable? && m.to == d && m.op.destination == d && m.op.mode == ReliableAcked
    && sys.peers[d].previous == Some(m.from) && sys.peers[d].coordinator != m.from
  }

  // No further stale traffic is answered.
  ghost predicate Plain(later: seq<Event>) {
    forall i :: 0 <= i < |later| ==> !later[i].ReceiveStale?
  }

  // The source's handle reports a delivery that the destination never committed.
  ghost predicate Misreports(cfg: Config, sys: System, later: seq<Event>, op: Operation) {
    var end := Run(cfg, sys, later);
    ShowsAcknowledged(end, op) && !Committed(end, op)
  }

  ghost predicate NeverMisreports(cfg: Config, sys: System, op: Operation) {
    forall later :: Plain(later) ==> !Misreports(cfg, sys, later, op)
  }

  // A coordinator holds a relay of `op` and still waits for the ACK of a final hop of it;
  // the source still waits for this coordinator.
  ghost predicate Waiting(sys: System, c: PeerId, hop: nat, op: Operation) {
    && c in sys.peers && sys.peers[c].coordinator == c
    && hop in sys.peers[c].hops && sys.peers[c].hops[hop] == Hop(op.Key(), op.destination, true)
    && Find(sys.peers[c].relays, op.Key()) != None && Find(sys.peers[c].relays, op.Key()).value.op == op
    && op.mode == ReliableAcked
    && op.source in sys.peers && op.source != c && op.destination != c && op.destination != op.source
    && sys.peers[op.source].coordinator == c
    && op.id in sys.peers[op.source].sends.live && sys.peers[op.source].sends.live[op.id] == op
    && op.id in sys.peers[op.source].handles && !sys.peers[op.source].handles[op.id].Terminal()
  }

  predicate ShowsAcknowledged(sys: System, op: Operation) {
    && op.source in sys.peers && op.id in sys.peers[op.source].handles
    && sys.peers[op.source].handles[op.id] == RemoteAcknowledged
  }

  // Once an answer to a stale hop meets a coordinator that still waits, two more
  // ordinary arrivals complete the source's handle although nothing was committed.
  lemma AnswerCompletesHandle(cfg: Config, sys: System, c: PeerId, hop: nat, op: Operation)
    requires Waiting(sys, c, hop, op) && !Committed(sys, op)
    requires GenericAck(op.destination, c, hop) in sys.net
    ensures var end := Run(cfg, sys, [AckArrives(c, GenericAck(op.destination, c, hop)),
                                      SignalArrives(op.source, DeliveryAck(c, op.source, ReceiptFor(op)))]);
            ShowsAcknowledged(end, op) && !Committed(end, op)
  {
    var ack := GenericAck(op.destination, c, hop);
    var receipt := DeliveryAck(c, op.source, ReceiptFor(op));
    AckBecomesDeliveryAck(cfg, sys, c, hop, op);
    RunTwo(cfg, sys, AckArrives(c, ack), SignalArrives(op.source, receipt));
    ReceiptCompletes(AckArrivesStep(cfg, sys, c, ack, Done), c, op);
  }

  lemma ReceiptCompletes(sys: System, c: PeerId, op: Operation)
    requires DeliveryAck(c, op.source, ReceiptFor(op)) in sys.net && op.mode == ReliableAcked
    requires op.source in sys.peers && sys.peers[op.source].coordinator == c
    requires op.id in sys.peers[op.source].sends.live && sys.peers[op.source].sends.live[op.id] == op
    requires op.id in sys.peers[op.source].handles && !sys.peers[op.source].handles[op.id].Terminal()
    ensures var end := SignalArrivesStep(sys, op.source, DeliveryAck(c, op.source, ReceiptFor(op)), Done);
            ShowsAcknowledged(end, op) && (Committed(end, op) <==> Committed(sys, op))
  {
  }

  lemma AckBecomesDeliveryAck(cfg: Config, sys: System, c: PeerId, hop: nat, op: Operation)
    requires Waiting(sys, c, hop, op) && GenericAck(op.destination, c, hop) in sys.net
    ensures var sys1 := AckArrivesStep(cfg, sys, c, GenericAck(op.destination, c, hop), Done);
            && DeliveryAck(c, op.source, ReceiptFor(op)) in sys1.net
            && (Committed(sys1, op) <==> Committed(sys, op))
            && sys1.peers[op.source] == sys.peers[op.source] && op.source in sys1.peers
  {
    var q := sys.peers[c];
    var outcome := Acknowledged(LimitsOf(cfg, c), q.relays, op.Key());
    assert outcome.result.value.deliveryAck == Some(ReceiptFor(op));
    var rest := With(sys, c, q.(hops := WithoutHop(q.hops, hop)), {});
    assert rest.peers[c].relays == q.relays;
  }

  // Answering while the former coordinator still believes in its authority, in any
  // state at all where the source still waits for it.
  lemma UnsafeAnswerGoesWrong(cfg: Config, sys: System, m: Message)
    requires Answerable(sys, m.to, m) && Waiting(sys, m.from, m.hop, m.op) && !Committed(sys, m.op)
    ensures var answered := ReceiveStaleStep(sys, m.to, m);
            var end := Run(cfg, answered, [AckArrives(m.from, GenericAck(m.to, m.from, m.hop)),
                                           SignalArrives(m.op.source, DeliveryAck(m.from, m.op.source, ReceiptFor(m.op)))]);
            ShowsAcknowledged(end, m.op) && !Committed(end, m.op)
  {
    var answered := ReceiveStaleStep(sys, m.to, m);
    assert answered.peers == sys.peers;
    AnswerCompletesHandle(cfg, answered, m.from, m.hop, m.op);
  }

  // ---------- the exact condition ----------

  // The former coordinator keeps the relay of the hop but waits for the hop no longer: its
  // retries were used up when the session resumed.
  ghost predicate HopForgotten(sys: System, m: Message)
    requires m.Reliable?
  {
    m.from in sys.peers && m.hop !in sys.peers[m.from].hops && exists r :: r in sys.peers[m.from].relays && r.hop == m.hop
  }

  // A final hop that is retained, and not forgotten, is waited for, with its destination
  // as the peer.
  lemma RetainedIsAwaited(cfg: Config, sys: System, c: PeerId, m: Message)
    requires Inv(sys) && Shaped(cfg, sys) && m in sys.net && m.Reliable? && m.from == c
    requires m.hop in sys.bound && sys.bound[m.hop].finalHop && c in sys.peers && Retains(sys.peers[c], m.hop)
    requires !HopForgotten(sys, m)
    ensures m.hop in sys.peers[c].hops && sys.peers[c].hops[m.hop] == Hop(m.op.Key(), m.op.destination, true)
    ensures m.op.destination != c && m.op.destination != m.op.source && Fits(cfg, m.op)
  {
    assert MessageSound(sys, m);
    assert PeerSound(sys, c, sys.peers[c]) && PeerShaped(cfg, sys, c, sys.peers[c]);
    assert FinalHopShaped(cfg, sys, c, m.hop, sys.peers[c].hops[m.hop]);
  }

  lemma RelayOfKnown(sys: System, c: PeerId, op: Operation)
    requires c in sys.peers && PeerSound(sys, c, sys.peers[c]) && Known(sys, op) && HasRelay(sys.peers[c], op.Key())
    ensures Find(sys.peers[c].relays, op.Key()).value.op == op
  {
    assert Known(sys, Find(sys.peers[c].relays, op.Key()).value.op);
  }

  // A coordinator waits for the hop of a relay of its own.
  ghost predicate OwnWaiting(sys: System, c: PeerId, hop: nat, op: Operation) {
    && c in sys.peers && op.source == c && op.mode == ReliableAcked
    && (var q := sys.peers[c];
        && q.coordinator == c && hop in q.hops && q.hops[hop] == Hop(op.Key(), op.destination, true)
        && Find(q.relays, op.Key()) != None && Find(q.relays, op.Key()).value.op == op
        && op.id in q.handles && !q.handles[op.id].Terminal())
  }

  // The answer to a coordinator's own relay completes its handle in one step.
  lemma OwnAnswerCompletes(cfg: Config, sys: System, c: PeerId, hop: nat, op: Operation)
    requires OwnWaiting(sys, c, hop, op) && !Committed(sys, op) && GenericAck(op.destination, c, hop) in sys.net
    ensures Misreports(cfg, sys, [AckArrives(c, GenericAck(op.destination, c, hop))], op)
  {
    var q := sys.peers[c];
    var ack := GenericAck(op.destination, c, hop);
    var rest := With(sys, c, q.(hops := WithoutHop(q.hops, hop)), {});
    var outcome := Acknowledged(LimitsOf(cfg, c), q.relays, op.Key());
    assert outcome.result.value.localState == Some(RemoteAcknowledged);
    assert AckArrivesStep(cfg, sys, c, ack, Done) == Apply(rest, c, c, outcome, Some(op.id), Done);
    RunOne(cfg, sys, AckArrives(c, ack));
  }

  // The two arrivals after some plain events.
  lemma ThenCompletes(cfg: Config, sys: System, before: seq<Event>, c: PeerId, hop: nat, op: Operation)
    requires Plain(before)
    requires var mid := Run(cfg, sys, before);
             Waiting(mid, c, hop, op) && !Committed(mid, op) && GenericAck(op.destination, c, hop) in mid.net
    ensures exists later :: Plain(later) && Misreports(cfg, sys, later, op)
  {
    var arrivals := [AckArrives(c, GenericAck(op.destination, c, hop)),
                     SignalArrives(op.source, DeliveryAck(c, op.source, ReceiptFor(op)))];
    AnswerCompletesHandle(cfg, Run(cfg, sys, before), c, hop, op);
    RunConcat(cfg, sys, before, arrivals);
    assert Plain(before + arrivals) && Misreports(cfg, sys, before + arrivals, op);
  }

  // The source commits a coordinator that still has its relay.
  lemma HeardAgain(cfg: Config, sys: System, c: PeerId, hop: nat, op: Operation)
    requires c in sys.peers && op.source in sys.peers && op.source != c && !Committed(sys, op)
    requires Waiting(sys.(peers := sys.peers[op.source := sys.peers[op.source].(coordinator := c)]), c, hop, op)
    requires sys.peers[op.source].open || sys.peers[op.source].coordinator == c
    requires GenericAck(op.destination, c, hop) in sys.net
    ensures exists later :: Plain(later) && Misreports(cfg, sys, later, op)
  {
    var e := Commit(op.source, c, {op.source, c});
    RunOne(cfg, sys, e);
    CommitChangesViews(sys, op.source, c, {op.source, c});
    ThenCompletes(cfg, sys, [e], c, hop, op);
  }

  // The source sends the operation again through a coordinator that still waits for the
  // old hop.
  lemma CarriedAgain(cfg: Config, sys: System, c: PeerId, hop: nat, op: Operation)
    requires Carriable(sys, c, op) && op.destination != c && Fits(cfg, op) && op.mode == ReliableAcked
    requires sys.nextHop + 1 !in sys.peers[c].hops
    requires op.id in sys.peers[op.source].handles && !sys.peers[op.source].handles[op.id].Terminal()
    requires hop in sys.peers[c].hops && sys.peers[c].hops[hop] == Hop(op.Key(), op.destination, true)
    requires GenericAck(op.destination, c, hop) in sys.net && !Committed(sys, op)
    ensures exists later :: Plain(later) && Misreports(cfg, sys, later, op)
  {
    CarriedByRelay(cfg, sys, c, op);
    ThenCompletes(cfg, sys, Carrying(sys, c, op), c, hop, op);
  }

  // What makes an answer unsafe: the operation is not accepted, the coordinator retains
  // the hop, and the source listens to it.
  ghost predicate Unsafe(sys: System, m: Message)
    requires m.Reliable?
  {
    && !Committed(sys, m.op) && m.from in sys.peers && Retains(sys.peers[m.from], m.hop)
    && (var q := sys.peers[m.from];
        if m.op.source == m.from then HasRelay(q, m.op.Key()) && !Over(q, m.op.id)
        else !Unheard(sys, m.from, m.op) && (q.open || HasRelay(q, m.op.Key())))
  }

  lemma UnsafeMeans(sys: System, m: Message)
    requires Inv(sys) && Answerable(sys, m.to, m) && !SafeAnswer(sys, m)
    ensures Unsafe(sys, m) && Known(sys, m.op) && m.hop in sys.bound && sys.bound[m.hop] == Binding(m.op, true)
  {
    assert MessageSound(sys, m);
  }

  lemma UnsafeForOwn(cfg: Config, sys: System, answered: System, m: Message)
    requires Inv(sys) && Shaped(cfg, sys) && Answerable(sys, m.to, m) && !SafeAnswer(sys, m) && m.op.source == m.from
    requires !HopForgotten(sys, m)
    requires answered.peers == sys.peers && GenericAck(m.to, m.from, m.hop) in answered.net
    ensures exists later :: Plain(later) && Misreports(cfg, answered, later, m.op)
  {
    UnsafeMeans(sys, m);
    RetainedIsAwaited(cfg, sys, m.from, m);
    OwnRelayShaped(cfg, sys, m.from, m.op);
    OwnWaitMisreports(cfg, answered, m.from, m.hop, m.op);
  }

  lemma OwnWaitMisreports(cfg: Config, sys: System, c: PeerId, hop: nat, op: Operation)
    requires OwnWaiting(sys, c, hop, op) && !Committed(sys, op) && GenericAck(op.destination, c, hop) in sys.net
    ensures exists later :: Plain(later) && Misreports(cfg, sys, later, op)
  {
    var later := [AckArrives(c, GenericAck(op.destination, c, hop))];
    OwnAnswerCompletes(cfg, sys, c, hop, op);
    assert Plain(later) && Misreports(cfg, sys, later, op);
  }

  lemma OwnRelayShaped(cfg: Config, sys: System, c: PeerId, op: Operation)
    requires Inv(sys) && Shaped(cfg, sys) && c in sys.peers && op.source == c && Known(sys, op)
    requires HasRelay(sys.peers[c], op.Key())
    ensures var q := sys.peers[c]; q.coordinator == c && Find(q.relays, op.Key()).value.op == op && op.id in q.handles
  {
    assert PeerSound(sys, c, sys.peers[c]) && PeerShaped(cfg, sys, c, sys.peers[c]);
    RelayOfKnown(sys, c, op);
    assert RelayShaped(cfg, c, sys.peers[c], Find(sys.peers[c].relays, op.Key()).value);
  }

  // The source of an unsafe answer holds the send and its handle.
  lemma SourceListens(cfg: Config, sys: System, m: Message)
    requires Inv(sys) && Shaped(cfg, sys) && m.Reliable? && Unsafe(sys, m) && Known(sys, m.op) && m.op.source != m.from
    ensures m.op.source in sys.peers
    ensures var q := sys.peers[m.op.source];
            && q.sends.live.Keys >= {m.op.id} && q.sends.live[m.op.id] == m.op
            && m.op.id in q.handles && !q.handles[m.op.id].Terminal()
  {
    var s := m.op.source;
    assert PeerSound(sys, s, sys.peers[s]) && PeerShaped(cfg, sys, s, sys.peers[s]);
    assert Known(sys, sys.peers[s].sends.live[m.op.id]);
  }

  lemma UnsafeForOther(cfg: Config, sys: System, answered: System, m: Message)
    requires Inv(sys) && Shaped(cfg, sys) && Answerable(sys, m.to, m) && !SafeAnswer(sys, m) && m.op.source != m.from
    requires !HopForgotten(sys, m)
    requires answered == sys.(net := answered.net) && GenericAck(m.to, m.from, m.hop) in answered.net
    ensures exists later :: Plain(later) && Misreports(cfg, answered, later, m.op)
  {
    var c, op := m.from, m.op;
    UnsafeMeans(sys, m);
    RetainedIsAwaited(cfg, sys, c, m);
    assert PeerSound(sys, c, sys.peers[c]) && PeerShaped(cfg, sys, c, sys.peers[c]);
    SourceListens(cfg, sys, m);
    if HasRelay(sys.peers[c], op.Key()) {
      RelayOfKnown(sys, c, op);
      HeardAgain(cfg, answered, c, m.hop, op);
    } else {
      CarriedAgain(cfg, answered, c, m.hop, op);
    }
  }

  lemma UnsafeWaitMisreports(cfg: Config, sys: System, answered: System, m: Message)
    requires Inv(sys) && Shaped(cfg, sys) && Answerable(sys, m.to, m) && !SafeAnswer(sys, m) && !HopForgotten(sys, m)
    requires answered == sys.(net := answered.net) && GenericAck(m.to, m.from, m.hop) in answered.net
    ensures exists later :: Plain(later) && Misreports(cfg, answered, later, m.op)
  {
    if m.op.source == m.from { UnsafeForOwn(cfg, sys, answered, m); } else { UnsafeForOther(cfg, sys, answered, m); }
  }

  // A sound system never reports a delivery falsely.
  lemma SoundNeverMisreports(cfg: Config, sys: System, op: Operation)
    requires Inv(sys) && Known(sys, op)
    ensures NeverMisreports(cfg, sys, op)
  {
    forall later: seq<Event> | Plain(later) ensures !Misreports(cfg, sys, later, op) {
      forall i | 0 <= i < |later| ensures SafeEvent(Run(cfg, sys, later[..i]), later[i]) { assert !later[i].ReceiveStale?; }
      SafeRunKeepsInv(cfg, sys, later);
      IssuedForever(cfg, sys, later, op.Key());
      var end := Run(cfg, sys, later);
      if ShowsAcknowledged(end, op) { assert PeerSound(end, op.source, end.peers[op.source]); }
    }
  }

  lemma SafeAnswerNeverMisreports(cfg: Config, sys: System, d: PeerId, m: Message)
    requires Inv(sys) && Answerable(sys, d, m) && SafeAnswer(sys, m)
    ensures NeverMisreports(cfg, ReceiveStaleStep(sys, d, m), m.op)
  {
    StaleKeepsInv(sys, d, m);
    assert MessageSound(sys, m);
    SoundNeverMisreports(cfg, ReceiveStaleStep(sys, d, m), m.op);
  }

  // ---------- authority lost before the answer, and regained after it ----------

  // Losing authority first is not enough when it can be regained: the program keeps
  // waiting for the old final hop's ACK, and matches it to a later relay of the same
  // operation. Peer 1 sends to peer 3 through coordinator 2.
  const OP := Operation(1, 3, 0, ReliableAcked, Normal, [])
  const CFG := Config(0, 2, MR.Caps(2, 2))
  const EVERYONE: set<PeerId> := {1, 2, 3}
  const FIRST := Reliable(2, 3, 1, OP)
  const ANSWER := GenericAck(3, 2, 1)

  function Fresh(): Peer {
    Peer(2, None, EVERYONE, true, MR.Sends(map[], map[]), 0, map[], [], [], map[], {}, None, [], {}, [], [], [], {})
  }

  function Beginning(): System { System(map[1 := Fresh(), 2 := Fresh(), 3 := Fresh()], {}, map[], 0, map[]) }

  // The source of the operation, with these submission loops and hops.
  function Source(passes: seq<Pass>, hops: map<nat, Hop>): Peer {
    Fresh().(sends := MR.Sends(map[0 := OP], map[]), nextId := 1, handles := map[0 := Transmitting],
             passes := passes, hops := hops)
  }

  const SUBMITTED := Pass(2, [], true)
  const FIRST_HOP := map[0 := Hop(OP.Key(), 2, false)]

  function Called(): System {
    Beginning().(peers := Beginning().peers[1 := Source([Pass(2, [OP], true)], map[])], issued := map[OP.Key() := OP])
  }

  function Sent(): System {
    Called().(peers := Beginning().peers[1 := Source([SUBMITTED], FIRST_HOP)], net := {Reliable(1, 2, 0, OP)},
              bound := map[0 := Binding(OP, false)], nextHop := 1)
  }

  function Coordinator(): Peer {
    Fresh().(relays := [Relay(OP, 1, 0)], hops := map[1 := Hop(OP.Key(), 3, true)])
  }

  function Forwarded(): System {
    Sent().(peers := Sent().peers[2 := Coordinator()],
            net := {Reliable(1, 2, 0, OP), GenericAck(2, 1, 0), FIRST},
            bound := map[0 := Binding(OP, false), 1 := Binding(OP, true)], nextHop := 2)
  }

  function Moved(): System {
    Forwarded().(peers := map[
      1 := Source([SUBMITTED], FIRST_HOP),
      2 := Coordinator().(coordinator := 3, previous := Some(2), relays := []),
      3 := Fresh().(coordinator := 3, previous := Some(2))])
  }

  function Answered(): System { Moved().(net := Moved().net + {ANSWER}) }

  function Regained(): System {
    Answered().(peers := Moved().peers[2 := Coordinator().(previous := Some(3), relays := [])])
  }

  function Snapshotted(): System {
    Regained().(peers := Regained().peers[1 := Source([SUBMITTED, Pass(2, [OP], false)], map[])])
  }

  function SentAgain(): System {
    Regained().(peers := Regained().peers[1 := Source([SUBMITTED, Pass(2, [], false)], map[2 := Hop(OP.Key(), 2, false)])],
                net := Regained().net + {Reliable(1, 2, 2, OP)},
                bound := Regained().bound[2 := Binding(OP, false)], nextHop := 3)
  }

  lemma CalledStep()
    ensures Step(CFG, Beginning(), Originate(1, 3, ReliableAcked, Normal, [], true)) == Called()
  {
    var named := Named(Beginning(), 1, OP);
    var q := named.peers[1];
    assert MR.Begin(q.sends, CFG.caps, ViewOf(1, q), OP) == (Ok(Transmitting), MR.Sends(map[0 := OP], map[]));
    assert [] + [Pass(2, [OP], true)] == [Pass(2, [OP], true)];
  }

  lemma SentStep()
    ensures Step(CFG, Called(), Submits(1, 0, true)) == Sent()
  {
    assert [OP][1..] == [];
    assert [Pass(2, [OP], true)][0 := SUBMITTED] == [SUBMITTED];
    assert map[][0 := Hop(OP.Key(), 2, false)] == FIRST_HOP;
    assert {} + {Reliable(1, 2, 0, OP)} == {Reliable(1, 2, 0, OP)};
  }

  lemma ForwardedStep()
    ensures Step(CFG, Sent(), Receive(2, Reliable(1, 2, 0, OP), true)) == Forwarded()
  {
    var outcome := Admitted(LimitsOf(CFG, 2), [], Relay(OP, 1, 0), 0, EVERYONE, true);
    assert outcome == Outcome(Ok(Actions(sourceHopAck := Some(0), forward := Some(Relay(OP, 1, 0)))), [Relay(OP, 1, 0)]);
    var bound := Bind(Sent(), OP, true);
    assert Apply(bound, 2, 1, outcome, None, Done) == Forwarded();
  }

  function Moving(): System {
    Forwarded().(peers := Forwarded().peers[2 := Coordinator().(coordinator := 3, previous := Some(2), relays := [])])
  }

  lemma MovingStep()
    ensures Step(CFG, Forwarded(), Commit(2, 3, EVERYONE)) == Moving()
  {
  }

  lemma MovedStep()
    ensures Step(CFG, Moving(), Commit(3, 3, EVERYONE)) == Moved()
  {
  }

  lemma AnsweredStep()
    ensures Step(CFG, Moved(), ReceiveStale(3, FIRST)) == Answered()
    ensures LostAuthority(Moved(), 2)
  {
    assert Moved().peers == Moved().peers[3 := Moved().peers[3]];
  }

  lemma RegainedStep()
    ensures Step(CFG, Answered(), Commit(2, 2, EVERYONE)) == Regained()
  {
  }

  lemma ReroutingStep()
    ensures Step(CFG, Regained(), RerouteBegins(1, [0], false)) == Snapshotted()
  {
    var q := Source([SUBMITTED], FIRST_HOP);
    assert 0 in [0] && Rerouted(q.sends, false) == {0};
    assert Snapshot(q.sends.live, [0]) == [OP];
    assert KeptHops(q.hops, false) == map[];
    assert [SUBMITTED] + [Pass(2, [OP], false)] == [SUBMITTED, Pass(2, [OP], false)];
  }

  lemma SentAgainStep()
    ensures Step(CFG, Snapshotted(), Submits(1, 1, true)) == SentAgain()
  {
    assert [OP][1..] == [];
    assert [SUBMITTED, Pass(2, [OP], false)][1 := Pass(2, [], false)] == [SUBMITTED, Pass(2, [], false)];
    assert map[][2 := Hop(OP.Key(), 2, false)] == map[2 := Hop(OP.Key(), 2, false)];
  }

  function AdmittedAgain(): System {
    Step(CFG, SentAgain(), Receive(2, Reliable(1, 2, 2, OP), true))
  }

  lemma AdmittedAgainWaits()
    ensures Waiting(AdmittedAgain(), 2, 1, OP) && !Committed(AdmittedAgain(), OP) && ANSWER in AdmittedAgain().net
  {
    var q := SentAgain().peers[2];
    var outcome := Admitted(LimitsOf(CFG, 2), [], Relay(OP, 3, 0), 2, EVERYONE, true);
    assert outcome == Outcome(Ok(Actions(sourceHopAck := Some(2), forward := Some(Relay(OP, 3, 0)))), [Relay(OP, 3, 0)]);
    var bound := Bind(SentAgain(), OP, true);
    assert AdmittedAgain() == Apply(bound, 2, 1, outcome, None, Done);
    assert Performed(q.(relays := outcome.relays), outcome.result.value, None) == AgainCoordinator();
    AgainWaits(AdmittedAgain());
  }

  // The old hop still stands beside the new one.
  function AgainCoordinator(): Peer {
    Coordinator().(previous := Some(3), relays := [Relay(OP, 3, 0)],
                   hops := Coordinator().hops[3 := Hop(OP.Key(), 3, true)])
  }

  lemma AgainWaits(sys: System)
    requires 1 in sys.peers && 2 in sys.peers && 3 in sys.peers
    requires sys.peers[1] == SentAgain().peers[1] && sys.peers[2] == AgainCoordinator() && sys.peers[3] == Moved().peers[3]
    ensures Waiting(sys, 2, 1, OP) && !Committed(sys, OP)
  {
    assert Find([Relay(OP, 3, 0)], OP.Key()) == Some(Relay(OP, 3, 0));
  }

  const UNTIL_REGAINED: seq<Event> := [
    Originate(1, 3, ReliableAcked, Normal, [], true),
    Submits(1, 0, true),
    Receive(2, Reliable(1, 2, 0, OP), true),
    Commit(2, 3, EVERYONE),
    Commit(3, 3, EVERYONE),
    ReceiveStale(3, FIRST),
    Commit(2, 2, EVERYONE)]

  const SECOND_ATTEMPT: seq<Event> := [
    RerouteBegins(1, [0], false),
    Submits(1, 1, true),
    Receive(2, Reliable(1, 2, 2, OP), true),
    AckArrives(2, ANSWER),
    SignalArrives(1, DeliveryAck(2, 1, ReceiptFor(OP)))]

  lemma Advance(events: seq<Event>, i: nat, before: System, after: System)
    requires i < |events| && Run(CFG, Beginning(), events[..i]) == before && Step(CFG, before, events[i]) == after
    ensures Run(CFG, Beginning(), events[..i + 1]) == after
  {
    assert events[..i + 1] == events[..i] + [events[i]];
    RunSnoc(CFG, Beginning(), events[..i], events[i]);
  }

  lemma RunUntilSent()
    ensures Run(CFG, Beginning(), UNTIL_REGAINED[..2]) == Sent()
  {
    CalledStep();
    SentStep();
    Advance(UNTIL_REGAINED, 0, Beginning(), Called());
    Advance(UNTIL_REGAINED, 1, Called(), Sent());
  }

  lemma RunUntilForwarded()
    ensures Run(CFG, Beginning(), UNTIL_REGAINED[..3]) == Forwarded()
  {
    RunUntilSent();
    ForwardedStep();
    Advance(UNTIL_REGAINED, 2, Sent(), Forwarded());
  }

  lemma RunUntilAnswer()
    ensures Run(CFG, Beginning(), UNTIL_REGAINED[..5]) == Moved()
  {
    RunUntilForwarded();
    MovingStep();
    MovedStep();
    Advance(UNTIL_REGAINED, 3, Forwarded(), Moving());
    Advance(UNTIL_REGAINED, 4, Moving(), Moved());
  }

  lemma RunUntilRegained()
    ensures Run(CFG, Beginning(), UNTIL_REGAINED) == Regained()
  {
    RunUntilAnswer();
    AnsweredStep();
    RegainedStep();
    Advance(UNTIL_REGAINED, 5, Moved(), Answered());
    Advance(UNTIL_REGAINED, 6, Answered(), Regained());
    assert UNTIL_REGAINED[..7] == UNTIL_REGAINED;
  }

  lemma RunSecondAttempt()
    ensures var end := Run(CFG, Regained(), SECOND_ATTEMPT); ShowsAcknowledged(end, OP) && !Committed(end, OP)
  {
    RunAdmittedAgain();
    AdmittedAgainWaits();
    AnswerCompletesHandle(CFG, AdmittedAgain(), 2, 1, OP);
    assert SECOND_ATTEMPT == SECOND_ATTEMPT[..3] + [SECOND_ATTEMPT[3], SECOND_ATTEMPT[4]];
    RunConcat(CFG, Regained(), SECOND_ATTEMPT[..3], [SECOND_ATTEMPT[3], SECOND_ATTEMPT[4]]);
  }

  lemma RunAdmittedAgain()
    ensures Run(CFG, Regained(), SECOND_ATTEMPT[..3]) == AdmittedAgain()
  {
    ReroutingStep();
    SentAgainStep();
    RunTwo(CFG, Regained(), SECOND_ATTEMPT[0], SECOND_ATTEMPT[1]);
    RunSnoc(CFG, Regained(), [SECOND_ATTEMPT[0], SECOND_ATTEMPT[1]], SECOND_ATTEMPT[2]);
    assert SECOND_ATTEMPT[..3] == [SECOND_ATTEMPT[0], SECOND_ATTEMPT[1]] + [SECOND_ATTEMPT[2]];
  }

  // The run: the coordinator commits its loss before the destination answers the stale
  // hop, coordinates again, is sent the same operation again, and reports a delivery
  // that never happened.
  lemma RegainedAuthorityGoesWrong()
    ensures Initial(Beginning())
    ensures UNTIL_REGAINED[5].ReceiveStale? && LostAuthority(Run(CFG, Beginning(), UNTIL_REGAINED[..5]), 2)
    ensures forall i :: 0 <= i < |UNTIL_REGAINED + SECOND_ATTEMPT| && i != 5 ==> !(UNTIL_REGAINED + SECOND_ATTEMPT)[i].ReceiveStale?
    ensures var end := Run(CFG, Beginning(), UNTIL_REGAINED + SECOND_ATTEMPT);
            ShowsAcknowledged(end, OP) && !Committed(end, OP)
  {
    RunUntilAnswer();
    AnsweredStep();
    RunUntilRegained();
    RunSecondAttempt();
    RunConcat(CFG, Beginning(), UNTIL_REGAINED, SECOND_ATTEMPT);
  }
}
