/**
 What any run of routed delivery can do to a source's handle: a terminal state is kept
 for ever, a cancelled send never becomes live again, and only two arrivals can
 acknowledge.
 */
module HandleLaws {
  import opened Types
  import opened RelayTable
  import opened RelayController
  import MR = MemberRouter
  import opened Dedup
  import opened RoutedDelivery
  import opened AckSoundness

  // GroupMessageIds in use are older than the next one.
  ghost predicate IdsUsed(q: Peer) {
    && (forall id :: id in q.handles ==> id < q.nextId)
    && (forall id :: id in q.sends.live ==> id < q.nextId && q.sends.live[id].id == id)
  }

  ghost predicate AllIdsUsed(sys: System) {
    forall p :: p in sys.peers ==> IdsUsed(sys.peers[p])
  }

  // Every terminal handle keeps its state, and no operation comes back to life.
  ghost predicate Settles(q: Peer, q': Peer) {
    && q.nextId <= q'.nextId
    && (forall id :: id in q.handles && q.handles[id].Terminal() ==> id in q'.handles && q'.handles[id] == q.handles[id])
    && (forall id :: id in q'.handles && id < q.nextId ==> id in q.handles)
    && (forall id :: id in q'.sends.live && id < q.nextId ==> id in q.sends.live)
    && (IdsUsed(q) ==> IdsUsed(q'))
  }

  // A step whose only effect on any peer is at `p`.
  ghost predicate SettlesAt(sys: System, sys': System, p: PeerId) {
    && p in sys.peers && sys'.peers.Keys == sys.peers.Keys
    && (forall other :: other in sys.peers && other != p ==> sys'.peers[other] == sys.peers[other])
    && Settles(sys.peers[p], sys'.peers[p])
  }

  lemma SettlesTwice(q1: Peer, q2: Peer, q3: Peer)
    requires Settles(q1, q2) && Settles(q2, q3)
    ensures Settles(q1, q3)
  {
  }

  lemma CompleteSettles(q: Peer, id: GroupMessageId, state: SendState)
    ensures Settles(q, Complete(q, id, state))
  {
  }

  lemma FewerLiveSettles(q: Peer, q': Peer)
    requires q'.handles == q.handles && q'.nextId == q.nextId
    requires forall id :: id in q'.sends.live ==> id in q.sends.live && q'.sends.live[id] == q.sends.live[id]
    ensures Settles(q, q')
  {
  }

  lemma WithSettles(sys: System, p: PeerId, q': Peer, messages: set<Message>)
    requires p in sys.peers && Settles(sys.peers[p], q')
    ensures SettlesAt(sys, With(sys, p, q', messages), p)
  {
  }

  lemma PerformedSettles(q: Peer, a: Actions, local: Option<GroupMessageId>)
    ensures Settles(q, Performed(q, a, local))
  {
    var q1 := Delivering(q, a);
    var q2 := Completing(q1, a, local);
    FewerLiveSettles(q, q1);
    if a.localState.Some? && local.Some? { CompleteSettles(q1, local.value, a.localState.value); }
    SettlesTwice(q, q1, q2);
    FewerLiveSettles(q2, Forwarding(q2, a));
    SettlesTwice(q, q2, Forwarding(q2, a));
  }

  lemma ApplySettles(sys: System, c: PeerId, from: PeerId, outcome: Outcome, local: Option<GroupMessageId>, reach: Reach)
    requires c in sys.peers
    ensures SettlesAt(sys, Apply(sys, c, from, outcome, local, reach), c)
  {
    var q := Releasing(sys.peers[c], outcome, reach);
    FewerLiveSettles(sys.peers[c], q);
    match outcome.result
    case Err(_) => WithSettles(sys, c, q, {});
    case Ok(all) =>
      var a := Cut(all, reach);
      PerformedSettles(q, a, local);
      SettlesTwice(sys.peers[c], q, Performed(q, a, local));
      WithSettles(sys, c, Performed(q, a, local), Emitted(c, from, a));
  }

  lemma NamedSettles(sys: System, p: PeerId, op: Operation)
    requires p in sys.peers && IdsUsed(sys.peers[p]) && op.id == sys.peers[p].nextId
    ensures SettlesAt(sys, Named(sys, p, op), p)
  {
  }

  lemma Chained(sys: System, mid: System, end: System, p: PeerId)
    requires SettlesAt(sys, mid, p) && SettlesAt(mid, end, p)
    ensures SettlesAt(sys, end, p)
  {
  }

  // Adding the operation just named to the live sends.
  lemma MemberOriginSettles(cfg: Config, sys: System, p: PeerId, op: Operation, ready: bool)
    requires p in sys.peers && IdsUsed(sys.peers[p]) && op.id == sys.peers[p].nextId
    ensures SettlesAt(sys, OriginateAsMember(cfg, Named(sys, p, op), p, op, ready), p)
  {
    var named := Named(sys, p, op);
    var q := named.peers[p];
    NamedSettles(sys, p, op);
    MemberOrigin(cfg, named, p, op, ready);
    CompleteSettles(q, op.id, Failed);
    WithSettles(named, p, Complete(q, op.id, Failed), {});
    BegunSettles(sys, p, op);
    if OriginateAsMember(cfg, named, p, op, ready) == With(named, p, Complete(q, op.id, Failed), {}) {
      Chained(sys, named, With(named, p, Complete(q, op.id, Failed), {}), p);
    }
  }

  lemma BegunSettles(sys: System, p: PeerId, op: Operation)
    requires p in sys.peers && IdsUsed(sys.peers[p]) && op.id == sys.peers[p].nextId
    ensures var named := Named(sys, p, op); SettlesAt(sys, With(named, p, Begun(named.peers[p], op), {}), p)
  {
    assert Settles(sys.peers[p], Begun(Named(sys, p, op).peers[p], op));
  }

  lemma SubmitsSettles(sys: System, p: PeerId, k: nat, submitted: bool)
    requires p in sys.peers
    ensures SettlesAt(sys, SubmitsStep(sys, p, k, submitted), p)
  {
    var q := sys.peers[p];
    if k < |q.passes| && q.passes[k].rest != [] {
      if submitted {
        FewerLiveSettles(q, SubmitsStep(sys, p, k, true).peers[p]);
      } else {
        AbandonedSettles(q, k);
        WithSettles(sys, p, Abandoned(q, k), {});
      }
    } else {
      FewerLiveSettles(q, q);
    }
  }

  lemma AbandonedSettles(q: Peer, k: nat)
    requires k < |q.passes| && q.passes[k].rest != []
    ensures Settles(q, Abandoned(q, k))
  {
    var ended := q.(passes := q.passes[k := q.passes[k].(rest := [])]);
    FewerLiveSettles(q, ended);
    CompleteSettles(ended, q.passes[k].rest[0].id, Failed);
    SettlesTwice(q, ended, Complete(ended, q.passes[k].rest[0].id, Failed));
  }

  lemma OwnOriginSettles(cfg: Config, sys: System, p: PeerId, op: Operation, ready: bool, reach: Reach)
    requires p in sys.peers
    ensures SettlesAt(sys, OriginateAsCoordinator(cfg, sys, p, op, ready, reach), p)
  {
    var outcome := OwnOutcome(cfg, sys, p, op, ready);
    var applied := Apply(Bind(sys, op, true), p, p, outcome, Some(op.id), reach);
    ApplySettles(Bind(sys, op, true), p, p, outcome, Some(op.id), reach);
    if OriginFails(outcome, reach) {
      CompleteSettles(applied.peers[p], op.id, Failed);
      WithSettles(applied, p, Complete(applied.peers[p], op.id, Failed), {});
      Chained(sys, applied, With(applied, p, Complete(applied.peers[p], op.id, Failed), {}), p);
    }
  }

  lemma OriginateSettles(cfg: Config, sys: System, e: Event)
    requires AllIdsUsed(sys) && e.Originate? && e.source in sys.peers
    ensures SettlesAt(sys, Step(cfg, sys, e), e.source)
  {
    var p := e.source;
    var op := Operation(p, e.destination, sys.peers[p].nextId, e.mode, e.priority, e.bytes);
    if Step(cfg, sys, e) == sys {
    } else if sys.peers[p].coordinator == p {
      NamedSettles(sys, p, op);
      OwnOriginSettles(cfg, Named(sys, p, op), p, op, e.ready, e.reach);
      Chained(sys, Named(sys, p, op), Step(cfg, sys, e), p);
    } else {
      MemberOriginSettles(cfg, sys, p, op, e.ready);
    }
  }

  lemma ReceiveSettles(cfg: Config, sys: System, p: PeerId, m: Message, ready: bool, reach: Reach)
    requires p in sys.peers
    ensures SettlesAt(sys, ReceiveStep(cfg, sys, p, m, ready, reach), p)
  {
    if ReceiveStep(cfg, sys, p, m, ready, reach) != sys {
      if sys.peers[p].coordinator == p {
        ApplySettles(Bind(sys, m.op, true), p, m.from,
          Admitted(LimitsOf(cfg, p), sys.peers[p].relays, Relay(m.op, sys.nextHop, |m.op.bytes|), m.hop, sys.peers[p].members, ready),
          None, reach);
      } else {
        DestinationSettles(sys, p, m, reach);
      }
    } else {
      FewerLiveSettles(sys.peers[p], sys.peers[p]);
    }
  }

  lemma DestinationSettles(sys: System, p: PeerId, m: Message, reach: Reach)
    requires p in sys.peers && m.Reliable?
    ensures SettlesAt(sys, ReceiveAsDestination(sys, p, m, reach), p)
  {
    DestinationSameSender(sys, p, m, reach);
    FewerLiveSettles(sys.peers[p], ReceiveAsDestination(sys, p, m, reach).peers[p]);
  }

  // A destination's own sends have nothing to do with what it receives.
  lemma DestinationSameSender(sys: System, p: PeerId, m: Message, reach: Reach)
    requires p in sys.peers && m.Reliable?
    ensures var sys' := ReceiveAsDestination(sys, p, m, reach);
            && p in sys'.peers && sys'.peers == sys.peers[p := sys'.peers[p]]
            && sys'.peers[p].handles == sys.peers[p].handles && sys'.peers[p].sends == sys.peers[p].sends
            && sys'.peers[p].nextId == sys.peers[p].nextId
  {
    OnlyRouterChanges(sys.peers[p], p, m, reach);
  }

  // An arrival at a destination concerns its router and what waits for its session.
  lemma OnlyRouterChanges(q: Peer, p: PeerId, m: Message, reach: Reach)
    requires m.Reliable?
    ensures var q' := AtDestination(q, p, m, reach).0;
            q' == q.(routedIn := q'.routedIn, routed := q'.routed, swallowed := q'.swallowed, handoff := q'.handoff)
  {
    var q1 := Routing(q);
    assert q1 == q.(routedIn := q1.routedIn, routed := q1.routed);
    if FromCoordinatorFor(q1, p, m) {
      var (r, cache) := Accept(q1.routed, DEDUP_WINDOW, m.op);
      assert r == Ok(true) ==> AtDestination(q, p, m, reach).0 == Taking(q1.(routed := cache), m.op, reach);
    }
  }

  lemma AckArrivesSettles(cfg: Config, sys: System, p: PeerId, m: Message, reach: Reach)
    requires p in sys.peers
    ensures SettlesAt(sys, AckArrivesStep(cfg, sys, p, m, reach), p)
  {
    if AckArrivesStep(cfg, sys, p, m, reach) != sys {
      var q := sys.peers[p];
      var rest := With(sys, p, q.(hops := WithoutHop(q.hops, m.hop)), {});
      ApplySettles(rest, p, p, Acknowledged(LimitsOf(cfg, p), q.relays, q.hops[m.hop].key), Some(q.hops[m.hop].key.id), reach);
      assert SettlesAt(sys, rest, p);
    }
  }

  lemma HopTimesOutSettles(cfg: Config, sys: System, p: PeerId, hop: nat, reach: Reach)
    requires p in sys.peers
    ensures SettlesAt(sys, HopTimesOutStep(cfg, sys, p, hop, reach), p)
  {
    var q := sys.peers[p];
    FewerLiveSettles(q, q);
    if hop in q.hops {
      var rest := q.(hops := WithoutHop(q.hops, hop));
      FewerLiveSettles(q, rest);
      WithSettles(sys, p, rest, {});
      if q.hops[hop].finalHop {
        if q.coordinator == p { FinalTimeoutSettles(cfg, sys, p, hop, reach); }
      } else {
        SourceTimeoutSettles(rest, q.hops[hop].key.id);
        SettlesTwice(q, rest, SourceTimedOut(rest, q.hops[hop].key.id));
        WithSettles(sys, p, SourceTimedOut(rest, q.hops[hop].key.id), {});
      }
    }
  }

  lemma FinalTimeoutSettles(cfg: Config, sys: System, p: PeerId, hop: nat, reach: Reach)
    requires p in sys.peers && sys.peers[p].coordinator == p && hop in sys.peers[p].hops && sys.peers[p].hops[hop].finalHop
    requires SettlesAt(sys, With(sys, p, sys.peers[p].(hops := WithoutHop(sys.peers[p].hops, hop)), {}), p)
    ensures SettlesAt(sys, HopTimesOutStep(cfg, sys, p, hop, reach), p)
  {
    var q := sys.peers[p];
    var key := q.hops[hop].key;
    var released := With(sys, p, q.(hops := WithoutHop(q.hops, hop)), {});
    ApplySettles(released, p, p, FinalHopFailure(LimitsOf(cfg, p), q.relays, key, DestinationAckTimeout), Some(key.id), reach);
    Chained(sys, released, HopTimesOutStep(cfg, sys, p, hop, reach), p);
  }

  lemma SourceTimeoutSettles(q: Peer, id: GroupMessageId)
    ensures Settles(q, SourceTimedOut(q, id))
  {
    var (r, sends) := MR.OnSourceHopTimeout(q.sends, id);
    if r.Ok? && r.value.Some? {
      FewerLiveSettles(q, q.(sends := sends));
      CompleteSettles(q.(sends := sends), id, r.value.value);
      SettlesTwice(q, q.(sends := sends), Complete(q.(sends := sends), id, r.value.value));
    } else {
      FewerLiveSettles(q, q);
    }
  }

  lemma SignalSettles(sys: System, p: PeerId, m: Message, reach: Reach)
    requires p in sys.peers
    ensures SettlesAt(sys, SignalArrivesStep(sys, p, m, reach), p)
  {
    if SignalArrivesStep(sys, p, m, reach) != sys {
      var q := sys.peers[p];
      var id := if m.DeliveryAck? then m.receipt.key.id else m.signal.key.id;
      var (r, sends) := if m.DeliveryAck? then MR.OnDeliveryAck(q.sends, ViewOf(p, q), m.from, m.receipt)
                        else MR.OnRelayStatus(q.sends, ViewOf(p, q), m.from, m.signal);
      FewerLiveSettles(q, q.(sends := sends));
      CompleteSettles(q.(sends := sends), id, r.value.state);
      SettlesTwice(q, q.(sends := sends), Complete(q.(sends := sends), id, r.value.state));
    }
  }

  lemma CancelledSends(s: MR.Sends, caps: MR.Caps, id: GroupMessageId, sessions: set<nat>)
    ensures MR.Cancel(s, caps, id, sessions).1.live == MR.Without(s.live, id)
  {
    if id !in s.live { assert MR.Without(s.live, id) == s.live; }
  }

  lemma CancelSettles(cfg: Config, sys: System, p: PeerId, id: GroupMessageId, sessions: set<nat>)
    requires p in sys.peers
    ensures SettlesAt(sys, CancelStep(cfg, sys, p, id, sessions), p)
  {
    if CancelStep(cfg, sys, p, id, sessions) != sys {
      CancelledSends(sys.peers[p].sends, cfg.caps, id, sessions);
      assert Settles(sys.peers[p], CancelStep(cfg, sys, p, id, sessions).peers[p]);
    }
  }

  // The peer an event happens at.
  function Where(e: Event): PeerId {
    match e
    case Originate(p, _, _, _, _, _, _) => p
    case RerouteBegins(p, _, _) => p
    case Submits(p, _, _) => p
    case Receive(p, _, _, _) => p
    case ReceiveStale(p, _) => p
    case AckArrives(p, _, _) => p
    case SignalArrives(p, _, _) => p
    case CancelSend(p, _, _) => p
    case HandOff(p) => p
    case HopTimesOut(p, _, _) => p
    case HopDropped(p, _) => p
    case Resumes(p, _) => p
    case OrderedHopSubmitted(p, _, _) => p
    case ForwardFails(p, _, _) => p
    case DestinationGone(p, _, _) => p
    case Commit(p, _, _) => p
    case Leave(p) => p
  }

  // The events that touch no handle and no live send.
  lemma QuietSettles(cfg: Config, sys: System, e: Event)
    requires Where(e) in sys.peers
    requires e.ReceiveStale? || e.HandOff? || e.DestinationGone? || e.Commit? || e.Leave? || e.HopDropped? || e.Resumes? || e.RerouteBegins?
    ensures SettlesAt(sys, Step(cfg, sys, e), Where(e))
  {
    match e
    case HandOff(p) => if sys.peers[p].handoff != [] { FewerLiveSettles(sys.peers[p], HandOffStep(sys, p).peers[p]); }
    case RerouteBegins(p, order, onlyOrdered) => RerouteBeginsSettles(sys, p, order, onlyOrdered);
    case DestinationGone(p, d, status) => FewerLiveSettles(sys.peers[p], DestinationGoneStep(sys, p, d, status).peers[p]);
    case Commit(p, c, members) => FewerLiveSettles(sys.peers[p], CommitStep(sys, p, c, members).peers[p]);
    case _ => StillSettles(cfg, sys, e);
  }

  lemma RerouteBeginsSettles(sys: System, p: PeerId, order: seq<GroupMessageId>, onlyOrdered: bool)
    requires p in sys.peers
    ensures SettlesAt(sys, RerouteBeginsStep(sys, p, order, onlyOrdered), p)
  {
    FewerLiveSettles(sys.peers[p], RerouteBeginsStep(sys, p, order, onlyOrdered).peers[p]);
  }

  lemma StillSettles(cfg: Config, sys: System, e: Event)
    requires Where(e) in sys.peers && (e.Leave? || e.ReceiveStale? || e.HopDropped? || e.Resumes?)
    ensures SettlesAt(sys, Step(cfg, sys, e), Where(e))
  {
    FewerLiveSettles(sys.peers[Where(e)], Step(cfg, sys, e).peers[Where(e)]);
  }

  // The events that report the result of a final hop.
  lemma ResultSettles(cfg: Config, sys: System, e: Event)
    requires Where(e) in sys.peers
    requires e.AckArrives? || e.HopTimesOut? || e.OrderedHopSubmitted? || e.ForwardFails?
    ensures SettlesAt(sys, Step(cfg, sys, e), Where(e))
  {
    match e
    case AckArrives(p, m, reach) => AckArrivesSettles(cfg, sys, p, m, reach);
    case HopTimesOut(p, hop, reach) => HopTimesOutSettles(cfg, sys, p, hop, reach);
    case OrderedHopSubmitted(p, key, reach) =>
      ApplySettles(sys, p, p, Submitted(LimitsOf(cfg, p), sys.peers[p].relays, key), None, reach);
      FewerLiveSettles(sys.peers[p], sys.peers[p]);
    case ForwardFails(p, key, reach) =>
      ApplySettles(sys, p, p, FinalHopFailure(LimitsOf(cfg, p), sys.peers[p].relays, key, DestinationUnavailable), Some(key.id), reach);
      FewerLiveSettles(sys.peers[p], sys.peers[p]);
  }

  lemma StepSettles(cfg: Config, sys: System, e: Event)
    requires AllIdsUsed(sys) && Where(e) in sys.peers
    ensures SettlesAt(sys, Step(cfg, sys, e), Where(e))
  {
    match e
    case Originate(_, _, _, _, _, _, _) => OriginateSettles(cfg, sys, e);
    case Submits(p, k, submitted) => SubmitsSettles(sys, p, k, submitted);
    case Receive(p, m, ready, reach) => ReceiveSettles(cfg, sys, p, m, ready, reach);
    case SignalArrives(p, m, reach) => SignalSettles(sys, p, m, reach);
    case CancelSend(p, id, sessions) => CancelSettles(cfg, sys, p, id, sessions);
    case _ =>
      if e.AckArrives? || e.HopTimesOut? || e.OrderedHopSubmitted? || e.ForwardFails? {
        ResultSettles(cfg, sys, e);
      } else {
        QuietSettles(cfg, sys, e);
      }
  }

  lemma NowhereNothing(cfg: Config, sys: System, e: Event)
    requires Where(e) !in sys.peers
    ensures Step(cfg, sys, e) == sys
  {
  }

  lemma {:induction false} RunIdsUsed(cfg: Config, start: System, events: seq<Event>)
    requires AllIdsUsed(start)
    ensures AllIdsUsed(Run(cfg, start, events))
  {
    if events != [] {
      var before, e := Run(cfg, start, events[..|events| - 1]), events[|events| - 1];
      RunIdsUsed(cfg, start, events[..|events| - 1]);
      if Where(e) in before.peers { StepSettles(cfg, before, e); } else { NowhereNothing(cfg, before, e); }
    }
  }

  // A terminal handle never changes again, whatever arrives, times out or migrates.
  lemma {:induction false} TerminalForever(cfg: Config, start: System, events: seq<Event>, p: PeerId, id: GroupMessageId)
    requires AllIdsUsed(start) && p in start.peers && id in start.peers[p].handles && start.peers[p].handles[id].Terminal()
    ensures var end := Run(cfg, start, events);
            p in end.peers && id in end.peers[p].handles && end.peers[p].handles[id] == start.peers[p].handles[id]
  {
    if events != [] {
      var before, e := Run(cfg, start, events[..|events| - 1]), events[|events| - 1];
      TerminalForever(cfg, start, events[..|events| - 1], p, id);
      RunIdsUsed(cfg, start, events[..|events| - 1]);
      if Where(e) in before.peers { StepSettles(cfg, before, e); } else { NowhereNothing(cfg, before, e); }
    }
  }

  lemma {:induction false} NeverLiveAgain(cfg: Config, start: System, events: seq<Event>, p: PeerId, id: GroupMessageId)
    requires AllIdsUsed(start) && p in start.peers && id < start.peers[p].nextId && id !in start.peers[p].sends.live
    ensures var end := Run(cfg, start, events);
            p in end.peers && id < end.peers[p].nextId && id !in end.peers[p].sends.live
  {
    if events != [] {
      var before, e := Run(cfg, start, events[..|events| - 1]), events[|events| - 1];
      NeverLiveAgain(cfg, start, events[..|events| - 1], p, id);
      RunIdsUsed(cfg, start, events[..|events| - 1]);
      if Where(e) in before.peers { StepSettles(cfg, before, e); } else { NowhereNothing(cfg, before, e); }
    }
  }

  // After a cancellation takes effect the handle stays CANCELLED through every later
  // signal, timeout, migration and reroute.
  lemma CancelledForever(cfg: Config, start: System, p: PeerId, id: GroupMessageId, sessions: set<nat>, events: seq<Event>)
    requires AllIdsUsed(start) && p in start.peers && id in start.peers[p].handles && !start.peers[p].handles[id].Terminal()
    ensures var end := Run(cfg, Step(cfg, start, CancelSend(p, id, sessions)), events);
            p in end.peers && id in end.peers[p].handles && end.peers[p].handles[id] == Cancelled
  {
    var cancelled := Step(cfg, start, CancelSend(p, id, sessions));
    CancelSettles(cfg, start, p, id, sessions);
    assert AllIdsUsed(cancelled);
    TerminalForever(cfg, cancelled, events, p, id);
  }

  // ---------- what can acknowledge ----------

  predicate Shows(q: Peer, id: GroupMessageId, state: SendState) { id in q.handles && q.handles[id] == state }

  // The two outcomes that report a success to the sending application.
  predicate Success(state: SendState) { state == RemoteAcknowledged || state == SentToTransport }

  // No handle of any peer newly shows this state.
  ghost predicate NoNew(sys: System, sys': System, state: SendState) {
    && sys'.peers.Keys == sys.peers.Keys
    && (forall p, id :: p in sys.peers && Shows(sys'.peers[p], id, state) ==> Shows(sys.peers[p], id, state))
  }

  lemma WithoutNew(sys: System, p: PeerId, q': Peer, messages: set<Message>, state: SendState)
    requires p in sys.peers && forall id :: Shows(q', id, state) ==> Shows(sys.peers[p], id, state)
    ensures NoNew(sys, With(sys, p, q', messages), state)
  {
  }

  lemma PerformedWithoutNew(q: Peer, a: Actions, local: Option<GroupMessageId>, state: SendState, id: GroupMessageId)
    requires local.Some? ==> a.localState != Some(state)
    ensures Shows(Performed(q, a, local), id, state) ==> Shows(q, id, state)
  {
    var q1 := Delivering(q, a);
    assert q1.handles == q.handles;
    assert Forwarding(Completing(q1, a, local), a).handles == Completing(q1, a, local).handles;
  }

  lemma ApplyWithoutNew(sys: System, c: PeerId, from: PeerId, outcome: Outcome, local: Option<GroupMessageId>, reach: Reach,
                        state: SendState)
    requires c in sys.peers
    requires outcome.result.Ok? && local.Some? ==> outcome.result.value.localState != Some(state)
    ensures NoNew(sys, Apply(sys, c, from, outcome, local, reach), state)
  {
    var q := sys.peers[c].(relays := outcome.relays);
    match outcome.result
    case Err(_) => WithoutNew(sys, c, q, {}, state);
    case Ok(all) =>
      var a := Cut(all, reach);
      forall id | Shows(Performed(q, a, local), id, state) ensures Shows(sys.peers[c], id, state) {
        PerformedWithoutNew(q, a, local, state, id);
      }
      WithoutNew(sys, c, Performed(q, a, local), Emitted(c, from, a), state);
  }

  lemma OwnOriginShowsNoNew(cfg: Config, sys: System, p: PeerId, op: Operation, ready: bool, reach: Reach, state: SendState)
    requires p in sys.peers && Success(state) && op.destination != p && op.source == p
    ensures NoNew(sys, OriginateAsCoordinator(cfg, sys, p, op, ready, reach), state)
  {
    var outcome := OwnOutcome(cfg, sys, p, op, ready);
    var applied := Apply(Bind(sys, op, true), p, p, outcome, Some(op.id), reach);
    ApplyWithoutNew(Bind(sys, op, true), p, p, outcome, Some(op.id), reach, state);
    if OriginFails(outcome, reach) {
      WithoutNew(applied, p, Complete(applied.peers[p], op.id, Failed), {}, state);
    }
  }

  lemma OriginateShowsNoNew(cfg: Config, sys: System, e: Event, state: SendState)
    requires e.Originate?
    requires Success(state)
    ensures NoNew(sys, Step(cfg, sys, e), state)
  {
    var p := e.source;
    if Step(cfg, sys, e) != sys {
      var op := Operation(p, e.destination, sys.peers[p].nextId, e.mode, e.priority, e.bytes);
      var named := Named(sys, p, op);
      assert NoNew(sys, named, state);
      if sys.peers[p].coordinator == p {
        OwnOriginShowsNoNew(cfg, named, p, op, e.ready, e.reach, state);
      } else {
        MemberOrigin(cfg, named, p, op, e.ready);
      }
    }
  }

  lemma TimeoutShowsNoNew(cfg: Config, sys: System, p: PeerId, hop: nat, reach: Reach, state: SendState)
    requires Success(state)
    ensures NoNew(sys, HopTimesOutStep(cfg, sys, p, hop, reach), state)
  {
    if p in sys.peers && hop in sys.peers[p].hops {
      var q := sys.peers[p];
      var key := q.hops[hop].key;
      var rest := q.(hops := WithoutHop(q.hops, hop));
      if q.hops[hop].finalHop {
        ApplyWithoutNew(With(sys, p, rest, {}), p, p,
                        FinalHopFailure(LimitsOf(cfg, p), q.relays, key, DestinationAckTimeout), Some(key.id), reach, state);
      } else {
        SourceTimeoutShowsNoNew(cfg, sys, p, hop, reach, state);
      }
    }
  }

  lemma SourceTimeoutShowsNoNew(cfg: Config, sys: System, p: PeerId, hop: nat, reach: Reach, state: SendState)
    requires Success(state) && p in sys.peers && hop in sys.peers[p].hops && !sys.peers[p].hops[hop].finalHop
    ensures NoNew(sys, HopTimesOutStep(cfg, sys, p, hop, reach), state)
  {
    var q := sys.peers[p];
    var key := q.hops[hop].key;
    var rest := q.(hops := WithoutHop(q.hops, hop));
    assert forall id, s :: Shows(Complete(rest.(sends := s), key.id, Failed), id, state) ==> Shows(q, id, state);
  }

  lemma RelayEventShowsNoNew(cfg: Config, sys: System, e: Event, state: SendState)
    requires e.Receive? || e.OrderedHopSubmitted? || e.ForwardFails?
    requires Success(state)
    ensures NoNew(sys, Step(cfg, sys, e), state)
  {
    var p := Where(e);
    if Step(cfg, sys, e) != sys {
      match e
      case Receive(_, m, ready, reach) => ReceiveShowsNoNew(cfg, sys, p, m, ready, reach, state);
      case OrderedHopSubmitted(_, key, reach) =>
        ApplyWithoutNew(sys, p, p, Submitted(LimitsOf(cfg, p), sys.peers[p].relays, key), None, reach, state);
      case ForwardFails(_, key, reach) =>
        ApplyWithoutNew(sys, p, p, FinalHopFailure(LimitsOf(cfg, p), sys.peers[p].relays, key, DestinationUnavailable),
                        Some(key.id), reach, state);
    }
  }

  lemma ReceiveShowsNoNew(cfg: Config, sys: System, p: PeerId, m: Message, ready: bool, reach: Reach, state: SendState)
    requires Success(state) && ReceiveStep(cfg, sys, p, m, ready, reach) != sys
    ensures NoNew(sys, ReceiveStep(cfg, sys, p, m, ready, reach), state)
  {
    if sys.peers[p].coordinator == p {
      ApplyWithoutNew(Bind(sys, m.op, true), p, m.from, AdmittedOutcome(cfg, sys, p, m.op, m.hop, ready), None, reach, state);
    } else {
      DestinationSameSender(sys, p, m, reach);
    }
  }

  lemma QuietShowsNoNew(cfg: Config, sys: System, e: Event, state: SendState)
    requires Quiet(e) || e.HandOff? || e.CancelSend? || e.Submits?
    requires Success(state)
    ensures NoNew(sys, Step(cfg, sys, e), state)
  {
    if Where(e) in sys.peers {
      match e
      case CancelSend(p, _, _) =>
        assert forall id :: Shows(Step(cfg, sys, e).peers[p], id, state) ==> Shows(sys.peers[p], id, state);
      case Submits(p, k, submitted) => SubmitsShowsNoNew(sys, p, k, submitted, state);
      case HandOff(p) => HandOffKeepsHandles(sys, p);
      case _ => QuietKeepsHandles(cfg, sys, e);
    }
  }

  lemma SubmitsShowsNoNew(sys: System, p: PeerId, k: nat, submitted: bool, state: SendState)
    requires Success(state)
    ensures NoNew(sys, SubmitsStep(sys, p, k, submitted), state)
  {
    if p in sys.peers && k < |sys.peers[p].passes| && sys.peers[p].passes[k].rest != [] {
      assert forall id :: Shows(SubmitsStep(sys, p, k, submitted).peers[p], id, state) ==> Shows(sys.peers[p], id, state);
    }
  }

  // The events that touch no handle.
  predicate Quiet(e: Event) {
    e.RerouteBegins? || e.ReceiveStale? || e.HopDropped? || e.Resumes? || e.DestinationGone? || e.Commit? || e.Leave?
  }

  lemma QuietKeepsHandles(cfg: Config, sys: System, e: Event)
    requires Quiet(e)
    ensures Step(cfg, sys, e).peers.Keys == sys.peers.Keys
    ensures forall p :: p in sys.peers ==> Step(cfg, sys, e).peers[p].handles == sys.peers[p].handles
  {
    match e
    case RerouteBegins(p, order, onlyOrdered) =>
    case ReceiveStale(p, m) =>
    case HopDropped(p, hop) =>
    case Resumes(p, key) =>
    case DestinationGone(p, d, status) =>
    case Commit(p, c, members) => CommitKeepsHandles(sys, p, c, members);
    case Leave(p) =>
  }

  lemma CommitKeepsHandles(sys: System, at: PeerId, c: PeerId, members: set<PeerId>)
    ensures CommitStep(sys, at, c, members).peers.Keys == sys.peers.Keys
    ensures forall p :: p in sys.peers ==> CommitStep(sys, at, c, members).peers[p].handles == sys.peers[p].handles
  {
  }

  lemma HandOffKeepsHandles(sys: System, at: PeerId)
    ensures HandOffStep(sys, at).peers.Keys == sys.peers.Keys
    ensures forall p :: p in sys.peers ==> HandOffStep(sys, at).peers[p].handles == sys.peers[p].handles
  {
  }

  // The generic ACK of a source hop only ends the wait for it.
  lemma SourceHopAckSettlesNothing(cfg: Config, sys: System, p: PeerId, m: Message, reach: Reach)
    requires p in sys.peers && m.GenericAck? && m.hop in sys.peers[p].hops && !sys.peers[p].hops[m.hop].finalHop
    ensures var sys' := AckArrivesStep(cfg, sys, p, m, reach);
            && p in sys'.peers && sys'.net == sys.net
            && sys'.peers[p].handles == sys.peers[p].handles && sys'.peers[p].sends == sys.peers[p].sends
  {
  }

  lemma SignalShowsLive(sys: System, at: PeerId, m: Message, reach: Reach, p: PeerId, id: GroupMessageId, state: SendState)
    requires Success(state) && p in sys.peers && p in SignalArrivesStep(sys, at, m, reach).peers
    requires Shows(SignalArrivesStep(sys, at, m, reach).peers[p], id, state) && !Shows(sys.peers[p], id, state)
    ensures at == p && FromCoordinator(sys, p, m, id, state)
  {
    if m.DeliveryAck? {
      AckedStep(sys, at, m, reach);
    }
  }

  // A signal from the coordinator that names a live send of `p` with its mode.
  predicate FromCoordinator(sys: System, p: PeerId, m: Message, id: GroupMessageId, state: SendState)
    requires p in sys.peers
  {
    var q := sys.peers[p];
    && (m.DeliveryAck? || m.RouteStatus?) && m.from == q.coordinator && id in q.sends.live
    && (state == RemoteAcknowledged ==>
          m.DeliveryAck? && m.receipt == Receipt(MessageKey(q.sends.live[id].source, id), q.sends.live[id].destination)
          && q.sends.live[id].mode == ReliableAcked)
    && (state == SentToTransport ==>
          m.RouteStatus? && q.sends.live[id].mode == ReliableOrdered
          && m.signal == Signal(MessageKey(q.sends.live[id].source, id), q.sends.live[id].destination, SentToDestinationTransport))
  }

  // The answer of a destination to a final hop of the coordinator's own retained relay.
  ghost predicate AnswersOwnRelay(sys: System, p: PeerId, m: Message, id: GroupMessageId)
    requires p in sys.peers
  {
    var q := sys.peers[p];
    && m.GenericAck? && q.coordinator == p && m.hop in q.hops && q.hops[m.hop].finalHop && q.hops[m.hop].peer == m.from
    && exists r :: r in q.relays && r.op.source == p && r.op.id == id && r.op.mode == ReliableAcked
  }

  lemma FinalAckShowsOwn(cfg: Config, sys: System, at: PeerId, m: Message, reach: Reach, p: PeerId, id: GroupMessageId, state: SendState)
    requires Success(state) && p in sys.peers && p in AckArrivesStep(cfg, sys, at, m, reach).peers
    requires Shows(AckArrivesStep(cfg, sys, at, m, reach).peers[p], id, state) && !Shows(sys.peers[p], id, state)
    ensures at == p && state == RemoteAcknowledged && AnswersOwnRelay(sys, p, m, id)
  {
    var q := sys.peers[at];
    var hop := q.hops[m.hop];
    var rest := With(sys, at, q.(hops := WithoutHop(q.hops, m.hop)), {});
    assert hop.finalHop && q.coordinator == at;
    var outcome := Acknowledged(LimitsOf(cfg, at), q.relays, hop.key);
    if outcome.result.Ok? && outcome.result.value.localState == Some(state) {
      var r := Find(q.relays, hop.key).value;
      assert r in q.relays && r.op.source == at && r.op.id == hop.key.id;
      assert AckArrivesStep(cfg, sys, at, m, reach) == Apply(rest, at, at, outcome, Some(hop.key.id), reach);
      var q1 := Releasing(rest.peers[at], outcome, reach);
      assert AckArrivesStep(cfg, sys, at, m, reach).peers[at] == Performed(q1, Cut(outcome.result.value, reach), Some(hop.key.id));
    } else {
      ApplyWithoutNew(rest, at, at, outcome, Some(hop.key.id), reach, state);
    }
  }

  // A handle reports a success in two ways only: the coordinator's signal for that live
  // send arrives, or the source is itself the coordinator and the destination answers
  // the final hop of its own acknowledged relay.
  lemma OnlyTwoArrivalsSucceed(cfg: Config, sys: System, e: Event, p: PeerId, id: GroupMessageId, state: SendState)
    requires Success(state) && p in sys.peers && p in Step(cfg, sys, e).peers
    requires Shows(Step(cfg, sys, e).peers[p], id, state) && !Shows(sys.peers[p], id, state)
    ensures || (e.SignalArrives? && e.to == p && FromCoordinator(sys, p, e.message, id, state))
            || (e.AckArrives? && e.to == p && state == RemoteAcknowledged && AnswersOwnRelay(sys, p, e.message, id))
  {
    match e
    case Originate(_, _, _, _, _, _, _) => OriginateShowsNoNew(cfg, sys, e, state);
    case HopTimesOut(at, hop, reach) => TimeoutShowsNoNew(cfg, sys, at, hop, reach, state);
    case SignalArrives(at, m, reach) => SignalShowsLive(sys, at, m, reach, p, id, state);
    case AckArrives(at, m, reach) => FinalAckShowsOwn(cfg, sys, at, m, reach, p, id, state);
    case _ =>
      if e.Receive? || e.OrderedHopSubmitted? || e.ForwardFails? {
        RelayEventShowsNoNew(cfg, sys, e, state);
      } else {
        QuietShowsNoNew(cfg, sys, e, state);
      }
  }

  // Nothing but a relay status for a live send reports SENT_TO_TRANSPORT.
  lemma {:induction false} NeverSentUnlessLive(cfg: Config, start: System, events: seq<Event>, p: PeerId, id: GroupMessageId)
    requires AllIdsUsed(start) && p in start.peers
    requires id < start.peers[p].nextId && id !in start.peers[p].sends.live && !Shows(start.peers[p], id, SentToTransport)
    ensures var end := Run(cfg, start, events); p in end.peers && !Shows(end.peers[p], id, SentToTransport)
  {
    if events != [] {
      var front, e := events[..|events| - 1], events[|events| - 1];
      var before := Run(cfg, start, front);
      NeverSentUnlessLive(cfg, start, front, p, id);
      NeverLiveAgain(cfg, start, front, p, id);
      RunIdsUsed(cfg, start, front);
      if Where(e) in before.peers { StepSettles(cfg, before, e); } else { NowhereNothing(cfg, before, e); }
      if Shows(Step(cfg, before, e).peers[p], id, SentToTransport) {
        OnlyTwoArrivalsSucceed(cfg, before, e, p, id, SentToTransport);
      }
    }
  }

  // An operation that a coordinator originated itself never reports SENT_TO_TRANSPORT,
  // not even a reliable-ordered one whose final hop is submitted.
  lemma OwnSendNeverReportsSent(cfg: Config, start: System, e: Event, events: seq<Event>)
    requires AllIdsUsed(start) && e.Originate? && e.source in start.peers && start.peers[e.source].coordinator == e.source
    requires Step(cfg, start, e) != start
    ensures var end := Run(cfg, Step(cfg, start, e), events);
            e.source in end.peers && !Shows(end.peers[e.source], start.peers[e.source].nextId, SentToTransport)
  {
    var p, id := e.source, start.peers[e.source].nextId;
    var next := Step(cfg, start, e);
    OriginateSettles(cfg, start, e);
    OwnSendIsNotLive(cfg, start, e);
    if Shows(next.peers[p], id, SentToTransport) { OnlyTwoArrivalsSucceed(cfg, start, e, p, id, SentToTransport); }
    NeverSentUnlessLive(cfg, next, events, p, id);
  }

  lemma OwnSendIsNotLive(cfg: Config, start: System, e: Event)
    requires AllIdsUsed(start) && e.Originate? && e.source in start.peers && start.peers[e.source].coordinator == e.source
    requires Step(cfg, start, e) != start
    ensures e.source in Step(cfg, start, e).peers
    ensures var (id, q) := (start.peers[e.source].nextId, Step(cfg, start, e).peers[e.source]);
            id < q.nextId && id !in q.sends.live
  {
    var p := e.source;
    var op := Operation(p, e.destination, start.peers[p].nextId, e.mode, e.priority, e.bytes);
    var named := Named(start, p, op);
    assert named.peers[p].sends == start.peers[p].sends && named.peers[p].nextId == op.id + 1;
    ApplyKeepsSends(Bind(named, op, true), p, p, OwnOutcome(cfg, named, p, op, e.ready), Some(op.id), e.reach);
  }

  lemma ApplyKeepsSends(sys: System, c: PeerId, from: PeerId, outcome: Outcome, local: Option<GroupMessageId>, reach: Reach)
    requires c in sys.peers
    ensures var q := Apply(sys, c, from, outcome, local, reach).peers[c];
            q.sends == sys.peers[c].sends && q.nextId == sys.peers[c].nextId
  {
    if outcome.result.Ok? {
      SendsOfPerformed(sys.peers[c].(relays := outcome.relays), Cut(outcome.result.value, reach), local);
    }
  }

  lemma SendsOfPerformed(q: Peer, a: Actions, local: Option<GroupMessageId>)
    ensures Performed(q, a, local).sends == q.sends && Performed(q, a, local).nextId == q.nextId
  {
  }
}
