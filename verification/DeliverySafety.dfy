/** What every run of RoutedDelivery keeps: bounded at-most-once delivery. */
module DeliverySafety {
  import opened Types
  import opened RelayTable
  import opened RelayController
  import opened Dedup
  import opened RoutedDelivery

  // ---------- at most once within the window ----------

  // The session's cache is the tail of what it delivered, and repeats are far apart.
  ghost predicate DedupSound(q: Peer) {
    q.session == Window(q.delivered, DEDUP_WINDOW) && Spaced(q.delivered, DEDUP_WINDOW)
  }

  ghost predicate AllDedupSound(sys: System) {
    forall p :: p in sys.peers ==> DedupSound(sys.peers[p])
  }

  lemma DeliverDedupSound(q: Peer, self: PeerId, op: Operation)
    requires DedupSound(q)
    ensures DedupSound(Deliver(q, self, op))
  {
    AcceptKeepsWindow(q.delivered, DEDUP_WINDOW, op);
  }

  lemma PerformedDedupSound(q: Peer, a: Actions, local: Option<GroupMessageId>)
    requires DedupSound(q)
    ensures DedupSound(Performed(q, a, local))
  {
  }

  lemma ApplyDedupSound(sys: System, c: PeerId, from: PeerId, outcome: Outcome, local: Option<GroupMessageId>, reach: Reach)
    requires AllDedupSound(sys) && c in sys.peers
    ensures AllDedupSound(Apply(sys, c, from, outcome, local, reach))
  {
    if outcome.result.Ok? {
      PerformedDedupSound(sys.peers[c].(relays := outcome.relays), Cut(outcome.result.value, reach), local);
    }
  }

  lemma OriginateDedupSound(cfg: Config, sys: System, e: Event)
    requires AllDedupSound(sys) && e.Originate?
    ensures AllDedupSound(Step(cfg, sys, e))
  {
    var p := e.source;
    if p in sys.peers && sys.peers[p].coordinator == p {
      var q := sys.peers[p];
      var op := Operation(p, e.destination, q.nextId, e.mode, e.priority, e.bytes);
      CoordinatorOriginDedupSound(cfg, Named(sys, p, op), p, op, e.ready, e.reach);
    }
  }

  lemma CoordinatorOriginDedupSound(cfg: Config, sys: System, p: PeerId, op: Operation, ready: bool, reach: Reach)
    requires AllDedupSound(sys) && p in sys.peers
    ensures AllDedupSound(OriginateAsCoordinator(cfg, sys, p, op, ready, reach))
  {
    ApplyDedupSound(Bind(sys, op, true), p, p, OwnOutcome(cfg, sys, p, op, ready), Some(op.id), reach);
  }

  lemma ReceiveDedupSound(cfg: Config, sys: System, p: PeerId, m: Message, ready: bool, reach: Reach)
    requires AllDedupSound(sys)
    ensures AllDedupSound(ReceiveStep(cfg, sys, p, m, ready, reach))
  {
    if ReceiveStep(cfg, sys, p, m, ready, reach) != sys {
      if sys.peers[p].coordinator == p {
        ApplyDedupSound(Bind(sys, m.op, true), p, m.from,
          Admitted(LimitsOf(cfg, p), sys.peers[p].relays, Relay(m.op, sys.nextHop, |m.op.bytes|), m.hop, sys.peers[p].members, ready),
          None, reach);
      } else {
        DestinationDedupSound(sys, p, m, reach);
      }
    }
  }

  lemma DestinationDedupSound(sys: System, p: PeerId, m: Message, reach: Reach)
    requires AllDedupSound(sys) && p in sys.peers && m.Reliable?
    ensures AllDedupSound(ReceiveAsDestination(sys, p, m, reach))
  {
  }

  lemma HopResultDedupSound(cfg: Config, sys: System, e: Event)
    requires AllDedupSound(sys)
    requires e.AckArrives? || e.HopTimesOut? || e.OrderedHopSubmitted? || e.ForwardFails?
    ensures AllDedupSound(Step(cfg, sys, e))
  {
    match e
    case AckArrives(p, m, reach) =>
      if p in sys.peers && m.GenericAck? && m.hop in sys.peers[p].hops {
        var q := sys.peers[p];
        ApplyDedupSound(With(sys, p, q.(hops := WithoutHop(q.hops, m.hop)), {}), p, p,
          Acknowledged(LimitsOf(cfg, p), q.relays, q.hops[m.hop].key), Some(q.hops[m.hop].key.id), reach);
      }
    case HopTimesOut(p, hop, reach) =>
      if p in sys.peers && hop in sys.peers[p].hops {
        var q := sys.peers[p];
        ApplyDedupSound(With(sys, p, q.(hops := WithoutHop(q.hops, hop)), {}), p, p,
          FinalHopFailure(LimitsOf(cfg, p), q.relays, q.hops[hop].key, DestinationAckTimeout), Some(q.hops[hop].key.id), reach);
      }
    case OrderedHopSubmitted(p, key, reach) =>
      if p in sys.peers { ApplyDedupSound(sys, p, p, Submitted(LimitsOf(cfg, p), sys.peers[p].relays, key), None, reach); }
    case ForwardFails(p, key, reach) =>
      if p in sys.peers {
        ApplyDedupSound(sys, p, p, FinalHopFailure(LimitsOf(cfg, p), sys.peers[p].relays, key, DestinationUnavailable),
                        Some(key.id), reach);
      }
  }

  lemma StepDedupSound(cfg: Config, sys: System, e: Event)
    requires AllDedupSound(sys)
    ensures AllDedupSound(Step(cfg, sys, e))
  {
    if e.Originate? {
      OriginateDedupSound(cfg, sys, e);
    } else if e.Receive? {
      ReceiveDedupSound(cfg, sys, e.to, e.message, e.ready, e.reach);
    } else if e.AckArrives? || e.HopTimesOut? || e.OrderedHopSubmitted? || e.ForwardFails? {
      HopResultDedupSound(cfg, sys, e);
    } else if e.HandOff? && e.at in sys.peers && sys.peers[e.at].handoff != [] {
      var q := sys.peers[e.at];
      DeliverDedupSound(q.(handoff := q.handoff[1..]), e.at, q.handoff[0]);
    }
  }

  lemma {:induction false} EveryRunDedupSound(cfg: Config, start: System, events: seq<Event>)
    requires AllDedupSound(start)
    ensures AllDedupSound(Run(cfg, start, events))
  {
    if events != [] {
      EveryRunDedupSound(cfg, start, events[..|events| - 1]);
      StepDedupSound(cfg, Run(cfg, start, events[..|events| - 1]), events[|events| - 1]);
    }
  }

  // In every run, of any number of peers, with any mix of loss, retransmission, RESUME,
  // migration, reroute and stale traffic: a destination repeats a delivery of one
  // (source, GroupMessageId) only after more than 16,384 later deliveries.
  lemma AtMostOnceWithinTheWindow(cfg: Config, start: System, events: seq<Event>, p: PeerId, i: nat, j: nat)
    requires Initial(start) && p in Run(cfg, start, events).peers
    ensures var delivered := Run(cfg, start, events).peers[p].delivered;
            i < j < |delivered| && delivered[i].Key() == delivered[j].Key() ==> j - i > 16384
  {
    assert forall q :: q in start.peers ==> DedupSound(start.peers[q]);
    EveryRunDedupSound(cfg, start, events);
    assert DedupSound(Run(cfg, start, events).peers[p]);
  }
}
