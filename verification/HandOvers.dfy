/**
 How an operation gets from a destination's router to its session, over every run: which
 arrivals hand it over, and which ones the router accepts without ever handing it over.
 */
module HandOvers {
  import opened Types
  import opened RelayTable
  import opened RelayController
  import opened Dedup
  import opened RoutedDelivery
  import opened DeliverySafety

  // ---------- the arrivals that count ----------

  // A hop that the peer does not discard at once.
  predicate Arrives(sys: System, e: Event) {
    && e.Receive? && e.to in sys.peers && e.message in sys.net && e.message.Reliable? && e.message.to == e.to
    && sys.peers[e.to].open && e.message.from in sys.peers[e.to].members
  }

  // The current router of a destination accepts the operation as new.
  predicate AcceptsNew(sys: System, e: Event, op: Operation) {
    && Arrives(sys, e) && e.message.op == op && sys.peers[e.to].coordinator != e.to
    && FromCoordinatorFor(sys.peers[e.to], e.to, e.message)
    && Accept(Routing(sys.peers[e.to]).routed, DEDUP_WINDOW, op).0 == Ok(true)
  }

  // A coordinator is itself the destination.
  predicate TakesHome(sys: System, e: Event, op: Operation) {
    && Arrives(sys, e) && e.message.op == op && sys.peers[e.to].coordinator == e.to && op.destination == e.to
    && op.source == e.message.from && op.source in sys.peers[e.to].members
    && op.destination in sys.peers[e.to].members && op.destination != op.source
  }

  predicate AnswerFails(e: Event, op: Operation)
    requires e.Receive?
  {
    op.mode == ReliableAcked && e.reach == AckFails
  }

  // The arrival hands the operation to the session.
  predicate HandsOver(sys: System, e: Event, op: Operation) {
    (AcceptsNew(sys, e, op) || TakesHome(sys, e, op)) && !AnswerFails(e, op)
  }

  // The router accepts the operation, its generic ACK cannot be submitted, and nothing is
  // handed over.
  predicate Swallows(sys: System, e: Event, op: Operation) { AcceptsNew(sys, e, op) && AnswerFails(e, op) }

  // ---------- what one step does at a destination ----------

  // Everything a destination keeps about accepted operations, apart from the router.
  ghost predicate SameRecords(sys: System, sys': System, d: PeerId)
    requires d in sys.peers
  {
    && d in sys'.peers
    && (var (q, q') := (sys.peers[d], sys'.peers[d]);
        && q'.swallowed == q.swallowed && q'.handoff == q.handoff && q'.session == q.session
        && q'.delivered == q.delivered && q'.dropped == q.dropped)
  }

  lemma ApplySameRecords(sys: System, c: PeerId, from: PeerId, outcome: Outcome, local: Option<GroupMessageId>, reach: Reach, d: PeerId)
    requires c in sys.peers && d in sys.peers && (outcome.result.Ok? ==> outcome.result.value.deliver.None?)
    ensures SameRecords(sys, Apply(sys, c, from, outcome, local, reach), d)
  {
  }

  lemma OriginateSameRecords(cfg: Config, sys: System, e: Event, d: PeerId)
    requires d in sys.peers && e.Originate?
    ensures SameRecords(sys, Step(cfg, sys, e), d)
  {
    var p := e.source;
    if Step(cfg, sys, e) != sys {
      var op := Operation(p, e.destination, sys.peers[p].nextId, e.mode, e.priority, e.bytes);
      if sys.peers[p].coordinator == p {
        OwnOriginSameRecords(cfg, Named(sys, p, op), p, op, e.ready, e.reach, d);
      } else {
        MemberOriginSameRecords(cfg, Named(sys, p, op), p, op, e.ready, d);
      }
    }
  }

  lemma OwnOriginSameRecords(cfg: Config, sys: System, p: PeerId, op: Operation, ready: bool, reach: Reach, d: PeerId)
    requires d in sys.peers && p in sys.peers && op.source == p && op.destination != p
    ensures SameRecords(sys, OriginateAsCoordinator(cfg, sys, p, op, ready, reach), d)
  {
    var outcome := OwnOutcome(cfg, sys, p, op, ready);
    OwnIsNotDelivered(cfg, sys, p, op, ready);
    ApplySameRecords(Bind(sys, op, true), p, p, outcome, Some(op.id), reach, d);
    var applied := Apply(Bind(sys, op, true), p, p, outcome, Some(op.id), reach);
    assert applied.peers == sys.peers[p := applied.peers[p]];
  }

  lemma OwnIsNotDelivered(cfg: Config, sys: System, p: PeerId, op: Operation, ready: bool)
    requires p in sys.peers && op.destination != p
    ensures var outcome := OwnOutcome(cfg, sys, p, op, ready); outcome.result.Ok? ==> outcome.result.value.deliver.None?
  {
  }

  lemma MemberOriginSameRecords(cfg: Config, sys: System, p: PeerId, op: Operation, ready: bool, d: PeerId)
    requires d in sys.peers && p in sys.peers
    ensures SameRecords(sys, OriginateAsMember(cfg, sys, p, op, ready), d)
  {
  }

  lemma AckArrivesSameRecords(cfg: Config, sys: System, p: PeerId, m: Message, reach: Reach, d: PeerId)
    requires d in sys.peers
    ensures SameRecords(sys, AckArrivesStep(cfg, sys, p, m, reach), d)
  {
    if AckArrivesStep(cfg, sys, p, m, reach) != sys {
      var q := sys.peers[p];
      var key := q.hops[m.hop].key;
      ApplySameRecords(With(sys, p, q.(hops := WithoutHop(q.hops, m.hop)), {}), p, p,
                       Acknowledged(LimitsOf(cfg, p), q.relays, key), Some(key.id), reach, d);
    }
  }

  lemma HopTimesOutSameRecords(cfg: Config, sys: System, p: PeerId, hop: nat, reach: Reach, d: PeerId)
    requires d in sys.peers
    ensures SameRecords(sys, HopTimesOutStep(cfg, sys, p, hop, reach), d)
  {
    if p in sys.peers && hop in sys.peers[p].hops {
      var q := sys.peers[p];
      var key := q.hops[hop].key;
      ApplySameRecords(With(sys, p, q.(hops := WithoutHop(q.hops, hop)), {}), p, p,
                       FinalHopFailure(LimitsOf(cfg, p), q.relays, key, DestinationAckTimeout), Some(key.id), reach, d);
    }
  }

  lemma SubmittedSameRecords(cfg: Config, sys: System, p: PeerId, key: MessageKey, reach: Reach, d: PeerId)
    requires d in sys.peers
    ensures SameRecords(sys, OrderedHopSubmittedStep(cfg, sys, p, key, reach), d)
  {
    if OrderedHopSubmittedStep(cfg, sys, p, key, reach) != sys {
      ApplySameRecords(sys, p, p, Submitted(LimitsOf(cfg, p), sys.peers[p].relays, key), None, reach, d);
    }
  }

  lemma FailedSameRecords(cfg: Config, sys: System, p: PeerId, key: MessageKey, reach: Reach, d: PeerId)
    requires d in sys.peers
    ensures SameRecords(sys, ForwardFailsStep(cfg, sys, p, key, reach), d)
  {
    if p in sys.peers && sys.peers[p].coordinator == p {
      ApplySameRecords(sys, p, p, FinalHopFailure(LimitsOf(cfg, p), sys.peers[p].relays, key, DestinationUnavailable),
                       Some(key.id), reach, d);
    }
  }

  lemma SubmitsSameRecords(sys: System, p: PeerId, k: nat, submitted: bool, d: PeerId)
    requires d in sys.peers
    ensures SameRecords(sys, SubmitsStep(sys, p, k, submitted), d)
  {
  }

  lemma SignalSameRecords(sys: System, p: PeerId, m: Message, reach: Reach, d: PeerId)
    requires d in sys.peers
    ensures SameRecords(sys, SignalArrivesStep(sys, p, m, reach), d)
  {
  }

  lemma SourceSameRecords(cfg: Config, sys: System, e: Event, d: PeerId)
    requires d in sys.peers && (e.RerouteBegins? || e.Submits? || e.SignalArrives? || e.CancelSend?)
    ensures SameRecords(sys, Step(cfg, sys, e), d)
  {
    match e
    case Submits(p, k, submitted) => SubmitsSameRecords(sys, p, k, submitted, d);
    case SignalArrives(p, m, reach) => SignalSameRecords(sys, p, m, reach, d);
    case _ =>
  }

  lemma ViewSameRecords(cfg: Config, sys: System, e: Event, d: PeerId)
    requires d in sys.peers && (e.ReceiveStale? || e.HopDropped? || e.Resumes? || e.DestinationGone? || e.Commit? || e.Leave?)
    ensures SameRecords(sys, Step(cfg, sys, e), d)
  {
    match e
    case ReceiveStale(p, m) =>
    case HopDropped(p, hop) =>
    case Resumes(p, key) =>
    case DestinationGone(p, x, status) =>
    case Commit(p, c, members) => CommitSameRecords(sys, p, c, members, d);
    case Leave(p) =>
  }

  lemma CommitSameRecords(sys: System, p: PeerId, c: PeerId, members: set<PeerId>, d: PeerId)
    requires d in sys.peers
    ensures SameRecords(sys, CommitStep(sys, p, c, members), d)
  {
  }

  lemma OthersSameRecords(cfg: Config, sys: System, e: Event, d: PeerId)
    requires d in sys.peers && !e.Receive? && !e.HandOff?
    ensures SameRecords(sys, Step(cfg, sys, e), d)
  {
    match e
    case Originate(_, _, _, _, _, _, _) => OriginateSameRecords(cfg, sys, e, d);
    case AckArrives(p, m, reach) => AckArrivesSameRecords(cfg, sys, p, m, reach, d);
    case HopTimesOut(p, hop, reach) => HopTimesOutSameRecords(cfg, sys, p, hop, reach, d);
    case OrderedHopSubmitted(p, key, reach) => SubmittedSameRecords(cfg, sys, p, key, reach, d);
    case ForwardFails(p, key, reach) => FailedSameRecords(cfg, sys, p, key, reach, d);
    case _ =>
      if e.RerouteBegins? || e.Submits? || e.SignalArrives? || e.CancelSend? {
        SourceSameRecords(cfg, sys, e, d);
      } else {
        ViewSameRecords(cfg, sys, e, d);
      }
  }

  // An arrival adds at most its own operation, to what waits for the session or to what
  // was swallowed.
  ghost predicate ArrivalEffect(sys: System, sys': System, e: Event, d: PeerId)
    requires d in sys.peers && e.Receive? && e.message.Reliable?
  {
    var op := e.message.op;
    && d in sys'.peers
    && (var (q, q') := (sys.peers[d], sys'.peers[d]);
        && q'.handoff == (if e.to == d && HandsOver(sys, e, op) then q.handoff + [op] else q.handoff)
        && q'.swallowed == (if e.to == d && Swallows(sys, e, op) then q.swallowed + {op} else q.swallowed)
        && q'.session == q.session && q'.delivered == q.delivered && q'.dropped == q.dropped)
  }

  lemma HomeEffect(cfg: Config, sys: System, e: Event, d: PeerId)
    requires d in sys.peers && Arrives(sys, e) && sys.peers[e.to].coordinator == e.to
    ensures ArrivalEffect(sys, Step(cfg, sys, e), e, d)
  {
    var (p, m) := (e.to, e.message);
    var q := sys.peers[p];
    var outcome := Admitted(LimitsOf(cfg, p), q.relays, Relay(m.op, sys.nextHop, |m.op.bytes|), m.hop, q.members, e.ready);
    assert Step(cfg, sys, e) == ReceiveAsCoordinator(cfg, sys, p, m, e.ready, e.reach);
    if m.op.source == m.from && m.op.source in q.members && m.op.destination in q.members && m.op.destination != m.op.source {
      HomeApplied(Bind(sys, m.op, true), p, m.from, outcome, e.reach, d);
    }
  }

  lemma HomeApplied(sys: System, c: PeerId, from: PeerId, outcome: Outcome, reach: Reach, d: PeerId)
    requires c in sys.peers && d in sys.peers
    ensures var sys' := Apply(sys, c, from, outcome, None, reach);
            && d in sys'.peers
            && (var (q, q') := (sys.peers[d], sys'.peers[d]);
                && q'.handoff == (if d == c && outcome.result.Ok? && Cut(outcome.result.value, reach).deliver.Some?
                                  then q.handoff + [Cut(outcome.result.value, reach).deliver.value] else q.handoff)
                && q'.swallowed == q.swallowed && q'.session == q.session && q'.delivered == q.delivered && q'.dropped == q.dropped)
  {
  }

  lemma DestinationEffect(cfg: Config, sys: System, e: Event, d: PeerId)
    requires d in sys.peers && Arrives(sys, e) && sys.peers[e.to].coordinator != e.to
    ensures ArrivalEffect(sys, Step(cfg, sys, e), e, d)
  {
    assert Step(cfg, sys, e) == ReceiveAsDestination(sys, e.to, e.message, e.reach);
    if d == e.to { RoutedEffect(sys, d, e.message, e.reach); } else { ElsewhereSame(sys, e.to, e.message, e.reach, d); }
  }

  lemma ElsewhereSame(sys: System, p: PeerId, m: Message, reach: Reach, d: PeerId)
    requires d in sys.peers && p in sys.peers && p != d && m.Reliable?
    ensures d in ReceiveAsDestination(sys, p, m, reach).peers
    ensures ReceiveAsDestination(sys, p, m, reach).peers[d] == sys.peers[d]
  {
  }

  lemma RoutedEffect(sys: System, d: PeerId, m: Message, reach: Reach)
    requires d in sys.peers && m.Reliable?
    ensures d in ReceiveAsDestination(sys, d, m, reach).peers
    ensures var (q, q') := (sys.peers[d], ReceiveAsDestination(sys, d, m, reach).peers[d]);
            var new_ := FromCoordinatorFor(q, d, m) && Accept(Routing(q).routed, DEDUP_WINDOW, m.op).0 == Ok(true);
            var fails := m.op.mode == ReliableAcked && reach == AckFails;
            && q'.handoff == (if new_ && !fails then q.handoff + [m.op] else q.handoff)
            && q'.swallowed == (if new_ && fails then q.swallowed + {m.op} else q.swallowed)
            && q'.session == q.session && q'.delivered == q.delivered && q'.dropped == q.dropped
  {
  }

  lemma ReceiveEffect(cfg: Config, sys: System, e: Event, d: PeerId)
    requires d in sys.peers && e.Receive?
    ensures if e.message.Reliable? then ArrivalEffect(sys, Step(cfg, sys, e), e, d) else Step(cfg, sys, e) == sys
  {
    if Arrives(sys, e) {
      if sys.peers[e.to].coordinator == e.to { HomeEffect(cfg, sys, e, d); } else { DestinationEffect(cfg, sys, e, d); }
    }
  }

  // The session neither invents nor forgets an operation that was handed over.
  lemma HandOffEffect(sys: System, p: PeerId, d: PeerId, op: Operation)
    requires d in sys.peers && DedupSound(sys.peers[d])
    ensures var sys' := HandOffStep(sys, p);
            && d in sys'.peers && sys'.peers[d].swallowed == sys.peers[d].swallowed
            && (HandedOver(sys'.peers[d], op) <==> HandedOver(sys.peers[d], op))
  {
    var q := sys.peers[d];
    if p == d && q.handoff != [] {
      var head := q.handoff[0];
      assert q.handoff == [head] + q.handoff[1..];
      AcceptedBefore(q, head);
    }
  }

  lemma AcceptedBefore(q: Peer, op: Operation)
    requires DedupSound(q)
    ensures Accept(q.session, DEDUP_WINDOW, op).0 == Ok(false) ==> op in q.delivered
  {
  }

  // ---------- over every run ----------

  ghost predicate WasHandedOver(cfg: Config, start: System, events: seq<Event>, d: PeerId, op: Operation) {
    exists i :: 0 <= i < |events| && events[i].Receive? && events[i].to == d && HandsOver(Run(cfg, start, events[..i]), events[i], op)
  }

  ghost predicate WasSwallowed(cfg: Config, start: System, events: seq<Event>, d: PeerId, op: Operation) {
    exists i :: 0 <= i < |events| && events[i].Receive? && events[i].to == d && Swallows(Run(cfg, start, events[..i]), events[i], op)
  }

  lemma HandedOverSnoc(cfg: Config, start: System, events: seq<Event>, d: PeerId, op: Operation)
    requires events != []
    ensures var front, e := events[..|events| - 1], events[|events| - 1];
            WasHandedOver(cfg, start, events, d, op)
            <==> WasHandedOver(cfg, start, front, d, op)
                 || (e.Receive? && e.to == d && HandsOver(Run(cfg, start, front), e, op))
  {
    var front, n := events[..|events| - 1], |events| - 1;
    assert forall i :: 0 <= i < n ==> front[..i] == events[..i] && front[i] == events[i];
    if WasHandedOver(cfg, start, front, d, op) {
      var i :| 0 <= i < n && front[i].Receive? && front[i].to == d && HandsOver(Run(cfg, start, front[..i]), front[i], op);
      assert HandsOver(Run(cfg, start, events[..i]), events[i], op);
    }
    if WasHandedOver(cfg, start, events, d, op) {
      var i :| 0 <= i < |events| && events[i].Receive? && events[i].to == d && HandsOver(Run(cfg, start, events[..i]), events[i], op);
      if i < n { assert HandsOver(Run(cfg, start, front[..i]), front[i], op); }
    }
  }

  lemma SwallowedSnoc(cfg: Config, start: System, events: seq<Event>, d: PeerId, op: Operation)
    requires events != []
    ensures var front, e := events[..|events| - 1], events[|events| - 1];
            WasSwallowed(cfg, start, events, d, op)
            <==> WasSwallowed(cfg, start, front, d, op)
                 || (e.Receive? && e.to == d && Swallows(Run(cfg, start, front), e, op))
  {
    if WasSwallowed(cfg, start, events[..|events| - 1], d, op) { SwallowedStays(cfg, start, events, d, op); }
    if WasSwallowed(cfg, start, events, d, op) { SwallowedWhen(cfg, start, events, d, op); }
  }

  lemma SwallowedStays(cfg: Config, start: System, events: seq<Event>, d: PeerId, op: Operation)
    requires events != [] && WasSwallowed(cfg, start, events[..|events| - 1], d, op)
    ensures WasSwallowed(cfg, start, events, d, op)
  {
    var front := events[..|events| - 1];
    var i :| 0 <= i < |front| && front[i].Receive? && front[i].to == d && Swallows(Run(cfg, start, front[..i]), front[i], op);
    assert front[..i] == events[..i] && front[i] == events[i];
  }

  lemma SwallowedWhen(cfg: Config, start: System, events: seq<Event>, d: PeerId, op: Operation)
    requires events != [] && WasSwallowed(cfg, start, events, d, op)
    ensures var front, e := events[..|events| - 1], events[|events| - 1];
            WasSwallowed(cfg, start, front, d, op) || (e.Receive? && e.to == d && Swallows(Run(cfg, start, front), e, op))
  {
    var front := events[..|events| - 1];
    var i :| 0 <= i < |events| && events[i].Receive? && events[i].to == d && Swallows(Run(cfg, start, events[..i]), events[i], op);
    if i < |front| { assert front[..i] == events[..i] && front[i] == events[i]; }
  }

  // What one event adds at the destination.
  lemma StepTakesOver(cfg: Config, sys: System, e: Event, d: PeerId, op: Operation)
    requires d in sys.peers && DedupSound(sys.peers[d])
    ensures var sys' := Step(cfg, sys, e);
            && d in sys'.peers
            && (HandedOver(sys'.peers[d], op)
                <==> HandedOver(sys.peers[d], op) || (e.Receive? && e.to == d && HandsOver(sys, e, op)))
            && (op in sys'.peers[d].swallowed
                <==> op in sys.peers[d].swallowed || (e.Receive? && e.to == d && Swallows(sys, e, op)))
  {
    if e.Receive? {
      ReceiveEffect(cfg, sys, e, d);
    } else if e.HandOff? {
      HandOffEffect(sys, e.at, d, op);
    } else {
      OthersSameRecords(cfg, sys, e, d);
    }
  }

  // In every run, an operation is delivered, queued for the session or refused by it if and
  // only if some arrival that was accepted as new was also answered; and it is swallowed if
  // and only if some arrival was accepted as new and could not be answered.
  lemma {:induction false} TakenOverIff(cfg: Config, start: System, events: seq<Event>, d: PeerId, op: Operation)
    requires Initial(start) && d in start.peers
    ensures var end := Run(cfg, start, events);
            && d in end.peers
            && (HandedOver(end.peers[d], op) <==> WasHandedOver(cfg, start, events, d, op))
            && (op in end.peers[d].swallowed <==> WasSwallowed(cfg, start, events, d, op))
  {
    if events != [] {
      var front, e := events[..|events| - 1], events[|events| - 1];
      TakenOverIff(cfg, start, front, d, op);
      assert AllDedupSound(start);
      EveryRunDedupSound(cfg, start, front);
      assert DedupSound(Run(cfg, start, front).peers[d]);
      StepTakesOver(cfg, Run(cfg, start, front), e, d, op);
      HandedOverSnoc(cfg, start, events, d, op);
      SwallowedSnoc(cfg, start, events, d, op);
    }
  }
}
