/**
 What every run keeps about relays and the hops they wait on: only a coordinator holds
 relays, each within its limits; a final hop that is waited for is an acknowledged one of
 an operation within the limits; and a live send has a handle.
 */
module RelayShape {
  import opened Types
  import opened RelayTable
  import opened RelayController
  import RR = RelayRuns
  import opened RoutedDelivery
  import opened AckSoundness
  import opened RoutedGuarantees
  import opened HandleLaws

  // A coordinator with an empty table can admit the operation.
  predicate Fits(cfg: Config, op: Operation) {
    |op.bytes| <= cfg.maxBytes && 1 <= cfg.maxMessages
  }

  predicate RelayShaped(cfg: Config, p: PeerId, q: Peer, r: Relay) {
    && Fits(cfg, r.op) && r.op.destination != p && r.op.destination != r.op.source
    && (r.op.source == p ==> r.op.id in q.handles)
  }

  predicate FinalHopShaped(cfg: Config, sys: System, p: PeerId, h: nat, hop: Hop) {
    hop.finalHop && h in sys.bound ==>
      var op := sys.bound[h].op;
      && hop.peer == op.destination && op.mode == ReliableAcked && Fits(cfg, op)
      && op.destination != p && op.destination != op.source
  }

  ghost predicate PeerShaped(cfg: Config, sys: System, p: PeerId, q: Peer) {
    && (q.relays != [] ==> q.coordinator == p)
    && (forall r :: r in q.relays ==> RelayShaped(cfg, p, q, r))
    && (forall h :: h in q.hops ==> FinalHopShaped(cfg, sys, p, h, q.hops[h]))
    && (forall id :: id in q.sends.live ==> id in q.handles)
  }

  ghost predicate Shaped(cfg: Config, sys: System) {
    forall p :: p in sys.peers ==> PeerShaped(cfg, sys, p, sys.peers[p])
  }

  // A step at `p` leaves every other peer and old bindings as they were.
  ghost predicate OnlyAt(sys: System, sys': System, p: PeerId) {
    && p in sys.peers && p in sys'.peers && sys'.peers == sys.peers[p := sys'.peers[p]]
    && (forall h :: h in sys.bound ==> h in sys'.bound && sys'.bound[h] == sys.bound[h])
  }

  lemma OthersStayShaped(cfg: Config, sys: System, sys': System, p: PeerId)
    requires Inv(sys) && Shaped(cfg, sys) && OnlyAt(sys, sys', p) && PeerShaped(cfg, sys', p, sys'.peers[p])
    ensures Shaped(cfg, sys')
  {
    forall other | other in sys'.peers && other != p ensures PeerShaped(cfg, sys', other, sys'.peers[other]) {
      assert HopsSound(sys, sys.peers[other]) by { assert PeerSound(sys, other, sys.peers[other]); }
      assert PeerShaped(cfg, sys, other, sys.peers[other]);
    }
  }

  // ---------- steps that send no final hop ----------

  // Relays and final hops that are waited for only go away; a live send keeps its handle.
  ghost predicate Sheds(p: PeerId, q: Peer, q': Peer) {
    && (q'.relays != [] ==> q'.coordinator == p)
    && (forall r :: r in q'.relays ==> r in q.relays)
    && (forall h :: h in q'.hops && q'.hops[h].finalHop ==> h in q.hops && q'.hops[h] == q.hops[h])
    && (forall id :: id in q'.sends.live ==> id in q.sends.live)
    && (forall id :: id in q.handles ==> id in q'.handles)
  }

  ghost predicate ShedStep(sys: System, sys': System, p: PeerId) {
    OnlyAt(sys, sys', p) && Sheds(p, sys.peers[p], sys'.peers[p])
  }

  lemma ShedStaysShaped(cfg: Config, sys: System, sys': System, p: PeerId)
    requires Inv(sys) && Shaped(cfg, sys) && ShedStep(sys, sys', p)
    ensures Shaped(cfg, sys')
  {
    assert HopsSound(sys, sys.peers[p]) by { assert PeerSound(sys, p, sys.peers[p]); }
    assert PeerShaped(cfg, sys, p, sys.peers[p]);
    OthersStayShaped(cfg, sys, sys', p);
  }

  lemma WithSheds(sys: System, p: PeerId, q': Peer, messages: set<Message>)
    requires p in sys.peers && Sheds(p, sys.peers[p], q')
    ensures ShedStep(sys, With(sys, p, q', messages), p)
  {
  }

  // Nothing that the shape speaks of changes.
  lemma SameSheds(cfg: Config, sys: System, p: PeerId, q: Peer, q': Peer)
    requires PeerShaped(cfg, sys, p, q)
    requires q'.relays == q.relays && q'.hops == q.hops && q'.sends == q.sends && q'.handles == q.handles
    requires q'.coordinator == q.coordinator
    ensures Sheds(p, q, q')
  {
  }

  lemma AcceptStepsShed(cfg: Config, sys: System, e: Event, p: PeerId)
    requires (e.ReceiveStale? && p == e.to) || ((e.HandOff? || e.Leave? || e.Resumes?) && p == e.at)
    requires p in sys.peers && PeerShaped(cfg, sys, p, sys.peers[p])
    ensures ShedStep(sys, Step(cfg, sys, e), p)
  {
    var q := sys.peers[p];
    SameSheds(cfg, sys, p, q, q);
    WithSheds(sys, p, q, {});
    assert With(sys, p, q, {}) == sys by { assert sys.peers[p := q] == sys.peers; }
    match e
    case HandOff(_) =>
      if q.handoff != [] {
        SameSheds(cfg, sys, p, q, Deliver(q.(handoff := q.handoff[1..]), p, q.handoff[0]));
        WithSheds(sys, p, Deliver(q.(handoff := q.handoff[1..]), p, q.handoff[0]), {});
      }
    case Leave(_) =>
      SameSheds(cfg, sys, p, q, q.(open := false));
      WithSheds(sys, p, q.(open := false), {});
    case Resumes(_, key) =>
      if ResumesStep(sys, p, key) != sys { WithSheds(sys, p, q, {FinalHop(p, Find(q.relays, key).value)}); }
    case ReceiveStale(_, m) => if m.Reliable? { WithSheds(sys, p, q, {GenericAck(p, m.from, m.hop)}); }
  }

  lemma DestinationReceiveSheds(cfg: Config, sys: System, p: PeerId, m: Message, reach: Reach)
    requires p in sys.peers && m.Reliable? && PeerShaped(cfg, sys, p, sys.peers[p])
    ensures ShedStep(sys, ReceiveAsDestination(sys, p, m, reach), p)
  {
    var (q, acks) := AtDestination(sys.peers[p], p, m, reach);
    OnlyRouterChanges(sys.peers[p], p, m, reach);
    SameSheds(cfg, sys, p, sys.peers[p], q);
    WithSheds(sys, p, q, acks);
  }

  lemma CommitSheds(cfg: Config, sys: System, p: PeerId, c: PeerId, members: set<PeerId>)
    requires p in sys.peers && PeerShaped(cfg, sys, p, sys.peers[p])
    ensures ShedStep(sys, CommitStep(sys, p, c, members), p)
  {
  }

  lemma DestinationGoneSheds(cfg: Config, sys: System, p: PeerId, d: PeerId, status: RelayStatus)
    requires p in sys.peers && PeerShaped(cfg, sys, p, sys.peers[p])
    ensures ShedStep(sys, DestinationGoneStep(sys, p, d, status), p)
  {
    RR.OutsideMembers(sys.peers[p].relays, OnlyTo(d));
  }

  lemma SignalSheds(cfg: Config, sys: System, p: PeerId, m: Message, reach: Reach)
    requires p in sys.peers && PeerShaped(cfg, sys, p, sys.peers[p])
    ensures ShedStep(sys, SignalArrivesStep(sys, p, m, reach), p)
  {
    var sys' := SignalArrivesStep(sys, p, m, reach);
    if sys' != sys {
      SignalKeepsTable(sys, p, m, reach);
      WithSheds(sys, p, sys'.peers[p], {});
    }
  }

  lemma SignalKeepsTable(sys: System, p: PeerId, m: Message, reach: Reach)
    requires p in sys.peers && SignalArrivesStep(sys, p, m, reach) != sys
    ensures var sys' := SignalArrivesStep(sys, p, m, reach);
            p in sys'.peers && (var (q, q') := (sys.peers[p], sys'.peers[p]);
            && sys' == With(sys, p, q', {}) && q' == q.(sends := q'.sends, handles := q'.handles)
            && q'.handles.Keys == q.handles.Keys && (forall id :: id in q'.sends.live ==> id in q.sends.live))
  {
  }

  lemma CancelSheds(cfg: Config, sys: System, p: PeerId, id: GroupMessageId, sessions: set<nat>)
    requires p in sys.peers && PeerShaped(cfg, sys, p, sys.peers[p])
    ensures ShedStep(sys, CancelStep(cfg, sys, p, id, sessions), p)
  {
    AckSoundness.CancelledSends(sys.peers[p].sends, cfg.caps, id, sessions);
  }

  lemma SourceTimeoutSheds(cfg: Config, sys: System, p: PeerId, hop: nat, reach: Reach)
    requires p in sys.peers && PeerShaped(cfg, sys, p, sys.peers[p])
    requires hop in sys.peers[p].hops && !sys.peers[p].hops[hop].finalHop
    ensures ShedStep(sys, HopTimesOutStep(cfg, sys, p, hop, reach), p)
  {
    var q := sys.peers[p];
    var key := q.hops[hop].key;
    WithSheds(sys, p, SourceTimedOut(q.(hops := WithoutHop(q.hops, hop)), key.id), {});
  }

  lemma HopDroppedSheds(cfg: Config, sys: System, p: PeerId, hop: nat)
    requires p in sys.peers && PeerShaped(cfg, sys, p, sys.peers[p])
    ensures ShedStep(sys, HopDroppedStep(sys, p, hop), p)
  {
  }

  lemma RerouteSheds(cfg: Config, sys: System, p: PeerId, order: seq<GroupMessageId>, onlyOrdered: bool)
    requires p in sys.peers && PeerShaped(cfg, sys, p, sys.peers[p])
    ensures ShedStep(sys, RerouteBeginsStep(sys, p, order, onlyOrdered), p)
  {
  }

  lemma SubmitsSheds(cfg: Config, sys: System, p: PeerId, k: nat, submitted: bool)
    requires p in sys.peers && PeerShaped(cfg, sys, p, sys.peers[p]) && sys.nextHop !in sys.bound
    requires sys.nextHop !in sys.peers[p].hops
    ensures ShedStep(sys, SubmitsStep(sys, p, k, submitted), p)
  {
    if k < |sys.peers[p].passes| && sys.peers[p].passes[k].rest != [] {
      if submitted { SubmittedSheds(cfg, sys, p, k); } else { WithSheds(sys, p, Abandoned(sys.peers[p], k), {}); }
    }
  }

  lemma SubmittedSheds(cfg: Config, sys: System, p: PeerId, k: nat)
    requires p in sys.peers && PeerShaped(cfg, sys, p, sys.peers[p]) && sys.nextHop !in sys.bound
    requires sys.nextHop !in sys.peers[p].hops && k < |sys.peers[p].passes| && sys.peers[p].passes[k].rest != []
    ensures ShedStep(sys, SubmitsStep(sys, p, k, true), p)
  {
  }

  lemma SheddingSheds(cfg: Config, sys: System, e: Event)
    requires var p := Where(e); p in sys.peers && PeerShaped(cfg, sys, p, sys.peers[p]) && sys.nextHop !in sys.peers[p].hops
    requires sys.nextHop !in sys.bound
    requires Quiet(e) || e.HandOff? || e.SignalArrives? || e.CancelSend? || e.Submits?
    ensures ShedStep(sys, Step(cfg, sys, e), Where(e))
  {
    match e
    case Commit(p, c, members) => CommitSheds(cfg, sys, p, c, members);
    case DestinationGone(p, d, status) => DestinationGoneSheds(cfg, sys, p, d, status);
    case SignalArrives(p, m, reach) => SignalSheds(cfg, sys, p, m, reach);
    case CancelSend(p, id, sessions) => CancelSheds(cfg, sys, p, id, sessions);
    case RerouteBegins(p, order, onlyOrdered) => RerouteSheds(cfg, sys, p, order, onlyOrdered);
    case Submits(p, k, submitted) => SubmitsSheds(cfg, sys, p, k, submitted);
    case HopDropped(p, hop) => HopDroppedSheds(cfg, sys, p, hop);
    case _ => AcceptStepsShed(cfg, sys, e, Where(e));
  }

  lemma SheddingKeepsShape(cfg: Config, sys: System, e: Event)
    requires Inv(sys) && Shaped(cfg, sys)
    requires Quiet(e) || e.HandOff? || e.SignalArrives? || e.CancelSend? || e.Submits?
    ensures Shaped(cfg, Step(cfg, sys, e))
  {
    var p := Where(e);
    if p in sys.peers {
      assert HopsSound(sys, sys.peers[p]) by { assert PeerSound(sys, p, sys.peers[p]); }
      assert PeerShaped(cfg, sys, p, sys.peers[p]);
      SheddingSheds(cfg, sys, e);
      ShedStaysShaped(cfg, sys, Step(cfg, sys, e), p);
    } else {
      NowhereNothing(cfg, sys, e);
    }
  }

  // ---------- a new operation ----------

  lemma NamedKeepsShape(cfg: Config, sys: System, p: PeerId, op: Operation)
    requires Inv(sys) && Shaped(cfg, sys) && p in sys.peers
    ensures Shaped(cfg, Named(sys, p, op))
  {
    assert PeerShaped(cfg, sys, p, sys.peers[p]);
    ShedStaysShaped(cfg, sys, Named(sys, p, op), p);
  }

  lemma BegunKeepsShape(cfg: Config, sys: System, p: PeerId, op: Operation)
    requires Inv(sys) && Shaped(cfg, sys) && p in sys.peers && op.id in sys.peers[p].handles
    ensures Shaped(cfg, With(sys, p, Begun(sys.peers[p], op), {}))
  {
    assert PeerShaped(cfg, sys, p, sys.peers[p]);
    OthersStayShaped(cfg, sys, With(sys, p, Begun(sys.peers[p], op), {}), p);
  }

  lemma FailKeepsShape(cfg: Config, sys: System, p: PeerId, id: GroupMessageId)
    requires Inv(sys) && Shaped(cfg, sys) && p in sys.peers
    ensures Shaped(cfg, With(sys, p, Complete(sys.peers[p], id, Failed), {}))
  {
    assert PeerShaped(cfg, sys, p, sys.peers[p]);
    ShedStaysShaped(cfg, sys, With(sys, p, Complete(sys.peers[p], id, Failed), {}), p);
  }

  lemma MemberOriginKeepsShape(cfg: Config, sys: System, p: PeerId, op: Operation, ready: bool)
    requires Inv(sys) && Shaped(cfg, sys) && p in sys.peers && op.id in sys.peers[p].handles
    ensures Shaped(cfg, OriginateAsMember(cfg, sys, p, op, ready))
  {
    MemberOrigin(cfg, sys, p, op, ready);
    FailKeepsShape(cfg, sys, p, op.id);
    BegunKeepsShape(cfg, sys, p, op);
  }

  // ---------- the coordinator's outcomes ----------

  predicate ForwardsHeld(outcome: Outcome) {
    outcome.result.Ok? && outcome.result.value.forward.Some? ==> outcome.result.value.forward.value in outcome.relays
  }

  lemma ApplyKeepsShape(cfg: Config, sys: System, c: PeerId, from: PeerId, outcome: Outcome, local: Option<GroupMessageId>, reach: Reach)
    requires c in sys.peers && ForwardsHeld(outcome)
    requires var sys1 := With(sys, c, sys.peers[c].(relays := outcome.relays), {}); Inv(sys1) && Shaped(cfg, sys1)
    ensures Shaped(cfg, Apply(sys, c, from, outcome, local, reach))
  {
    MarkingKeepsInv(sys, c, outcome, reach);
    MarkingKeepsShape(cfg, sys, c, outcome, reach);
    if outcome.result.Ok? {
      var q := Releasing(sys.peers[c], outcome, reach);
      var a := Cut(outcome.result.value, reach);
      WithTwice(sys, c, q, Performed(q, a, local));
      ActKeepsShape(cfg, With(sys, c, q, {}), c, from, a, local);
    }
  }

  lemma MarkingKeepsShape(cfg: Config, sys: System, c: PeerId, outcome: Outcome, reach: Reach)
    requires c in sys.peers && Shaped(cfg, With(sys, c, sys.peers[c].(relays := outcome.relays), {}))
    ensures Shaped(cfg, With(sys, c, Releasing(sys.peers[c], outcome, reach), {}))
  {
    var released, marked := With(sys, c, sys.peers[c].(relays := outcome.relays), {}), With(sys, c, Releasing(sys.peers[c], outcome, reach), {});
    forall p | p in marked.peers ensures PeerShaped(cfg, marked, p, marked.peers[p]) { assert PeerShaped(cfg, released, p, released.peers[p]); }
  }

  lemma ActKeepsShape(cfg: Config, sys: System, c: PeerId, from: PeerId, a: Actions, local: Option<GroupMessageId>)
    requires Inv(sys) && Shaped(cfg, sys) && c in sys.peers
    requires a.forward.Some? ==> a.forward.value in sys.peers[c].relays
    ensures Shaped(cfg, With(sys, c, Performed(sys.peers[c], a, local), Emitted(c, from, a)))
  {
    assert PeerSound(sys, c, sys.peers[c]) && PeerShaped(cfg, sys, c, sys.peers[c]);
    PerformedStaysShaped(cfg, sys, c, from, a, local);
    OnlyActed(sys, c, from, a, local);
    OthersStayShaped(cfg, sys, With(sys, c, Performed(sys.peers[c], a, local), Emitted(c, from, a)), c);
  }

  lemma OnlyActed(sys: System, c: PeerId, from: PeerId, a: Actions, local: Option<GroupMessageId>)
    requires c in sys.peers
    ensures OnlyAt(sys, With(sys, c, Performed(sys.peers[c], a, local), Emitted(c, from, a)), c)
  {
  }

  lemma PerformedStaysShaped(cfg: Config, sys: System, c: PeerId, from: PeerId, a: Actions, local: Option<GroupMessageId>)
    requires c in sys.peers && PeerSound(sys, c, sys.peers[c]) && PeerShaped(cfg, sys, c, sys.peers[c])
    requires a.forward.Some? ==> a.forward.value in sys.peers[c].relays
    ensures var q' := Performed(sys.peers[c], a, local);
            PeerShaped(cfg, With(sys, c, q', Emitted(c, from, a)), c, q')
  {
    var q := sys.peers[c];
    var q' := Performed(q, a, local);
    var sys' := With(sys, c, q', Emitted(c, from, a));
    assert q'.relays == q.relays && q'.sends == q.sends && q'.coordinator == q.coordinator && q'.handles.Keys == q.handles.Keys;
    forall r | r in q'.relays ensures RelayShaped(cfg, c, q', r) { assert RelayShaped(cfg, c, q, r); }
    forall h | h in q'.hops ensures FinalHopShaped(cfg, sys', c, h, q'.hops[h]) {
      if a.forward.Some? && h == a.forward.value.hop { assert RelayShaped(cfg, c, q, a.forward.value); }
    }
  }

  // Relays are released.
  lemma ReleasedKeepsShape(cfg: Config, sys: System, c: PeerId, relays: seq<Relay>)
    requires Inv(sys) && Shaped(cfg, sys) && c in sys.peers && forall r :: r in relays ==> r in sys.peers[c].relays
    ensures var sys1 := With(sys, c, sys.peers[c].(relays := relays), {}); Inv(sys1) && Shaped(cfg, sys1)
  {
    LesserKeepsInv(sys, c, sys.peers[c].(relays := relays), {});
    assert PeerShaped(cfg, sys, c, sys.peers[c]);
    assert relays != [] ==> relays[0] in sys.peers[c].relays;
    ShedStaysShaped(cfg, sys, With(sys, c, sys.peers[c].(relays := relays), {}), c);
  }

  lemma ResultHeld(cfg: Config, c: PeerId, relays: seq<Relay>, key: MessageKey, outcome: Outcome)
    requires || outcome == Acknowledged(LimitsOf(cfg, c), relays, key) || outcome == Submitted(LimitsOf(cfg, c), relays, key)
             || (exists status :: outcome == FinalHopFailure(LimitsOf(cfg, c), relays, key, status))
    ensures ForwardsHeld(outcome) && forall r :: r in outcome.relays ==> r in relays
  {
    WithoutMembers(relays, key);
    if Find(relays, key).Some? { HeadIsKept(relays, key, key.source, Find(relays, key).value.op.destination); }
  }

  // The result of a final hop, at a coordinator.
  lemma ResultKeepsShape(cfg: Config, sys: System, c: PeerId, key: MessageKey, outcome: Outcome, local: Option<GroupMessageId>, reach: Reach)
    requires Inv(sys) && Shaped(cfg, sys) && c in sys.peers
    requires var relays := sys.peers[c].relays;
             || outcome == Acknowledged(LimitsOf(cfg, c), relays, key) || outcome == Submitted(LimitsOf(cfg, c), relays, key)
             || (exists status :: outcome == FinalHopFailure(LimitsOf(cfg, c), relays, key, status))
    ensures Shaped(cfg, Apply(sys, c, c, outcome, local, reach))
  {
    ResultHeld(cfg, c, sys.peers[c].relays, key, outcome);
    ReleasedKeepsShape(cfg, sys, c, outcome.relays);
    ApplyKeepsShape(cfg, sys, c, c, outcome, local, reach);
  }

  lemma WithoutHopKeepsShape(cfg: Config, sys: System, p: PeerId, hop: nat)
    requires Inv(sys) && Shaped(cfg, sys) && p in sys.peers
    ensures var rest := With(sys, p, sys.peers[p].(hops := WithoutHop(sys.peers[p].hops, hop)), {}); Inv(rest) && Shaped(cfg, rest)
  {
    WithoutHopKeepsInv(sys, p, hop);
    assert PeerShaped(cfg, sys, p, sys.peers[p]);
    ShedStaysShaped(cfg, sys, With(sys, p, sys.peers[p].(hops := WithoutHop(sys.peers[p].hops, hop)), {}), p);
  }

  // ---------- admission ----------

  // A relay on a MessageId that nobody has seen before.
  lemma NewRelayShaped(cfg: Config, sys: System, c: PeerId, op: Operation)
    requires Inv(sys) && Shaped(cfg, sys) && c in sys.peers && sys.peers[c].coordinator == c && Fits(cfg, op)
    requires op.destination != c && op.destination != op.source && (op.source == c ==> op.id in sys.peers[c].handles)
    ensures var q' := sys.peers[c].(relays := sys.peers[c].relays + [Relay(op, sys.nextHop, |op.bytes|)]);
            Shaped(cfg, With(Bind(sys, op, true), c, q', {}))
  {
    var q := sys.peers[c];
    var q' := q.(relays := q.relays + [Relay(op, sys.nextHop, |op.bytes|)]);
    assert PeerSound(sys, c, q) && PeerShaped(cfg, sys, c, q);
    OthersStayShaped(cfg, sys, With(Bind(sys, op, true), c, q', {}), c);
  }

  lemma BoundShaped(cfg: Config, sys: System, c: PeerId, op: Operation)
    requires Inv(sys) && Shaped(cfg, sys) && c in sys.peers
    ensures Shaped(cfg, Bind(sys, op, true))
  {
    assert PeerShaped(cfg, sys, c, sys.peers[c]);
    ShedStaysShaped(cfg, sys, Bind(sys, op, true), c);
  }

  lemma AdmittedShape(cfg: Config, sys: System, c: PeerId, op: Operation, sourceHop: nat, ready: bool)
    requires c in sys.peers
    ensures var outcome := AdmittedOutcome(cfg, sys, c, op, sourceHop, ready);
            && ForwardsHeld(outcome)
            && (outcome.relays != sys.peers[c].relays ==>
                  && outcome.relays == sys.peers[c].relays + [Relay(op, sys.nextHop, |op.bytes|)]
                  && Fits(cfg, op) && op.destination != c && op.destination != op.source)
  {
  }

  lemma AdmitStepKeepsShape(cfg: Config, sys: System, c: PeerId, from: PeerId, op: Operation, sourceHop: nat, ready: bool,
                            local: Option<GroupMessageId>, reach: Reach)
    requires Inv(sys) && Shaped(cfg, sys) && c in sys.peers && sys.peers[c].coordinator == c
    requires Known(sys, op) && MayRelay(sys, c, op) && (op.source == c ==> op.id in sys.peers[c].handles)
    ensures Shaped(cfg, Apply(Bind(sys, op, true), c, from, AdmittedOutcome(cfg, sys, c, op, sourceHop, ready), local, reach))
  {
    var outcome := AdmittedOutcome(cfg, sys, c, op, sourceHop, ready);
    AdmittedShape(cfg, sys, c, op, sourceHop, ready);
    if outcome.relays == sys.peers[c].relays {
      BindKeepsInv(sys, c, op, true);
      BoundShaped(cfg, sys, c, op);
      ReleasedKeepsShape(cfg, Bind(sys, op, true), c, outcome.relays);
    } else {
      NewRelayKeepsInv(sys, c, op);
      NewRelayShaped(cfg, sys, c, op);
    }
    ApplyKeepsShape(cfg, Bind(sys, op, true), c, from, outcome, local, reach);
  }

  // ---------- every run ----------

  lemma OwnOriginKeepsShape(cfg: Config, sys: System, p: PeerId, op: Operation, ready: bool, reach: Reach)
    requires Inv(sys) && Shaped(cfg, sys) && p in sys.peers && sys.peers[p].coordinator == p
    requires Known(sys, op) && op.source == p && !Used(sys, op.Key()) && op.id in sys.peers[p].handles
    ensures Shaped(cfg, OriginateAsCoordinator(cfg, sys, p, op, ready, reach))
  {
    var outcome := OwnOutcome(cfg, sys, p, op, ready);
    var applied := Apply(Bind(sys, op, true), p, p, outcome, Some(op.id), reach);
    AdmitStepKeepsInv(cfg, sys, p, p, op, 0, ready, Some(op.id), reach);
    AdmitStepKeepsShape(cfg, sys, p, p, op, 0, ready, Some(op.id), reach);
    if OriginFails(outcome, reach) { FailKeepsShape(cfg, applied, p, op.id); }
  }

  lemma OriginateKeepsShape(cfg: Config, sys: System, e: Event)
    requires Inv(sys) && Shaped(cfg, sys) && e.Originate?
    ensures Shaped(cfg, Step(cfg, sys, e))
  {
    var p := e.source;
    if Step(cfg, sys, e) != sys {
      var op := Operation(p, e.destination, sys.peers[p].nextId, e.mode, e.priority, e.bytes);
      NamedKeepsInv(sys, p, op);
      NamedKeepsShape(cfg, sys, p, op);
      var named := Named(sys, p, op);
      if sys.peers[p].coordinator == p {
        OwnOriginKeepsShape(cfg, named, p, op, e.ready, e.reach);
      } else {
        MemberOriginKeepsShape(cfg, named, p, op, e.ready);
      }
    }
  }

  lemma ReceiveKeepsShape(cfg: Config, sys: System, p: PeerId, m: Message, ready: bool, reach: Reach)
    requires Inv(sys) && Shaped(cfg, sys)
    ensures Shaped(cfg, ReceiveStep(cfg, sys, p, m, ready, reach))
  {
    if ReceiveStep(cfg, sys, p, m, ready, reach) != sys {
      assert MessageSound(sys, m);
      if sys.peers[p].coordinator == p {
        AdmitStepKeepsShape(cfg, sys, p, m.from, m.op, m.hop, ready, None, reach);
      } else {
        assert PeerShaped(cfg, sys, p, sys.peers[p]);
        DestinationReceiveSheds(cfg, sys, p, m, reach);
        ShedStaysShaped(cfg, sys, ReceiveAsDestination(sys, p, m, reach), p);
      }
    }
  }

  lemma AckArrivesKeepsShape(cfg: Config, sys: System, p: PeerId, m: Message, reach: Reach)
    requires Inv(sys) && Shaped(cfg, sys)
    ensures Shaped(cfg, AckArrivesStep(cfg, sys, p, m, reach))
  {
    if AckArrivesStep(cfg, sys, p, m, reach) != sys {
      var q := sys.peers[p];
      var key := q.hops[m.hop].key;
      WithoutHopKeepsShape(cfg, sys, p, m.hop);
      if q.hops[m.hop].finalHop && q.coordinator == p {
        ResultKeepsShape(cfg, With(sys, p, q.(hops := WithoutHop(q.hops, m.hop)), {}), p, key,
                         Acknowledged(LimitsOf(cfg, p), q.relays, key), Some(key.id), reach);
      }
    }
  }

  lemma HopTimesOutKeepsShape(cfg: Config, sys: System, p: PeerId, hop: nat, reach: Reach)
    requires Inv(sys) && Shaped(cfg, sys)
    ensures Shaped(cfg, HopTimesOutStep(cfg, sys, p, hop, reach))
  {
    if p in sys.peers && hop in sys.peers[p].hops {
      var q := sys.peers[p];
      var key := q.hops[hop].key;
      WithoutHopKeepsShape(cfg, sys, p, hop);
      if !q.hops[hop].finalHop {
        assert PeerShaped(cfg, sys, p, q);
        SourceTimeoutSheds(cfg, sys, p, hop, reach);
        ShedStaysShaped(cfg, sys, HopTimesOutStep(cfg, sys, p, hop, reach), p);
      } else if q.coordinator == p {
        ResultKeepsShape(cfg, With(sys, p, q.(hops := WithoutHop(q.hops, hop)), {}), p, key,
                         FinalHopFailure(LimitsOf(cfg, p), q.relays, key, DestinationAckTimeout), Some(key.id), reach);
      }
    }
  }

  lemma SubmittedKeepsShape(cfg: Config, sys: System, p: PeerId, key: MessageKey, reach: Reach)
    requires Inv(sys) && Shaped(cfg, sys)
    ensures Shaped(cfg, OrderedHopSubmittedStep(cfg, sys, p, key, reach))
  {
    if p in sys.peers {
      ResultKeepsShape(cfg, sys, p, key, Submitted(LimitsOf(cfg, p), sys.peers[p].relays, key), None, reach);
    }
  }

  lemma ForwardFailsKeepsShape(cfg: Config, sys: System, p: PeerId, key: MessageKey, reach: Reach)
    requires Inv(sys) && Shaped(cfg, sys)
    ensures Shaped(cfg, ForwardFailsStep(cfg, sys, p, key, reach))
  {
    if p in sys.peers {
      ResultKeepsShape(cfg, sys, p, key, FinalHopFailure(LimitsOf(cfg, p), sys.peers[p].relays, key, DestinationUnavailable),
                       Some(key.id), reach);
    }
  }

  lemma StepKeepsShape(cfg: Config, sys: System, e: Event)
    requires Inv(sys) && Shaped(cfg, sys)
    ensures Shaped(cfg, Step(cfg, sys, e))
  {
    match e
    case Originate(_, _, _, _, _, _, _) => OriginateKeepsShape(cfg, sys, e);
    case Receive(p, m, ready, reach) => ReceiveKeepsShape(cfg, sys, p, m, ready, reach);
    case AckArrives(p, m, reach) => AckArrivesKeepsShape(cfg, sys, p, m, reach);
    case HopTimesOut(p, hop, reach) => HopTimesOutKeepsShape(cfg, sys, p, hop, reach);
    case OrderedHopSubmitted(p, key, reach) => SubmittedKeepsShape(cfg, sys, p, key, reach);
    case ForwardFails(p, key, reach) => ForwardFailsKeepsShape(cfg, sys, p, key, reach);
    case _ => SheddingKeepsShape(cfg, sys, e);
  }

  lemma {:induction false} EveryRunShaped(cfg: Config, start: System, events: seq<Event>)
    requires Initial(start) && SafeRun(cfg, start, events)
    ensures Inv(Run(cfg, start, events)) && Shaped(cfg, Run(cfg, start, events))
  {
    InitialInv(start);
    SafeRunKeepsInv(cfg, start, events);
    if events != [] {
      SafePrefix(cfg, start, events);
      EveryRunShaped(cfg, start, events[..|events| - 1]);
      StepKeepsShape(cfg, Run(cfg, start, events[..|events| - 1]), events[|events| - 1]);
    }
  }
}
