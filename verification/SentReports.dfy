/**
 When a reliable-ordered send can report SENT_TO_TRANSPORT at all: exactly when its
 source does not coordinate the group itself.
 */
module SentReports {
  import opened Types
  import opened RelayTable
  import opened RelayController
  import MR = MemberRouter
  import opened RoutedDelivery
  import opened AckSoundness
  import opened RoutedGuarantees
  import opened HandleLaws
  import opened RelayShape
  import opened Rerouting

  // Another open peer that can take the operation: its destination, or one within limits.
  predicate CanCarry(cfg: Config, sys: System, x: PeerId, op: Operation) {
    x in sys.peers && x != op.source && sys.peers[x].open && (x == op.destination || Fits(cfg, op))
  }

  ghost predicate ReportsSent(cfg: Config, sys: System, later: seq<Event>, op: Operation) {
    var end := Run(cfg, sys, later);
    op.source in end.peers && Shows(end.peers[op.source], op.id, SentToTransport)
  }

  // The operation an Originate event names.
  function Originated(sys: System, e: Event): Operation
    requires e.Originate? && e.source in sys.peers
  {
    Operation(e.source, e.destination, sys.peers[e.source].nextId, e.mode, e.priority, e.bytes)
  }

  // The send call returned a handle that is still waiting.
  predicate AcceptedSend(cfg: Config, sys: System, e: Event) {
    && e.Originate? && e.source in sys.peers && Step(cfg, sys, e) != sys
    && e.source in Step(cfg, sys, e).peers
    && (var handles := Step(cfg, sys, e).peers[e.source].handles;
        var id := sys.peers[e.source].nextId;
        id in handles && !handles[id].Terminal())
  }

  // The source waits for `x` and a status of `x` for the operation has been sent.
  predicate StatusSent(sys: System, x: PeerId, op: Operation) {
    && op.source in sys.peers && sys.peers[op.source].coordinator == x && op.mode == ReliableOrdered
    && op.id in sys.peers[op.source].sends.live && sys.peers[op.source].sends.live[op.id] == op
    && op.id in sys.peers[op.source].handles && !sys.peers[op.source].handles[op.id].Terminal()
    && RouteStatus(x, op.source, SignalFor(op, SentToDestinationTransport)) in sys.net
  }

  lemma StatusReports(cfg: Config, sys: System, x: PeerId, op: Operation)
    requires StatusSent(sys, x, op)
    ensures ReportsSent(cfg, sys, [SignalArrives(op.source, RouteStatus(x, op.source, SignalFor(op, SentToDestinationTransport)))], op)
  {
    var m := RouteStatus(x, op.source, SignalFor(op, SentToDestinationTransport));
    var q := sys.peers[op.source];
    assert MR.OnRelayStatus(q.sends, ViewOf(op.source, q), x, m.signal).0 == Ok(MR.Applied(SentToTransport));
    RunOne(cfg, sys, SignalArrives(op.source, m));
  }

  lemma ThenReports(cfg: Config, sys: System, before: seq<Event>, x: PeerId, op: Operation)
    requires StatusSent(Run(cfg, sys, before), x, op)
    ensures exists later :: ReportsSent(cfg, sys, later, op)
  {
    var m := RouteStatus(x, op.source, SignalFor(op, SentToDestinationTransport));
    StatusReports(cfg, Run(cfg, sys, before), x, op);
    RunConcat(cfg, sys, before, [SignalArrives(op.source, m)]);
    assert ReportsSent(cfg, sys, before + [SignalArrives(op.source, m)], op);
  }

  // Submitting the final hop of the only relay sends the status.
  lemma SubmittedSendsStatus(cfg: Config, sys: System, x: PeerId, op: Operation, r: Relay)
    requires x in sys.peers && sys.peers[x].coordinator == x && sys.peers[x].relays == [r] && r.op == op
    requires op.mode == ReliableOrdered && op.source != x && op.source in sys.peers && FinalHop(x, r) in sys.net
    ensures var sys' := OrderedHopSubmittedStep(cfg, sys, x, op.Key(), Done);
            && RouteStatus(x, op.source, SignalFor(op, SentToDestinationTransport)) in sys'.net
            && op.source in sys'.peers && sys'.peers[op.source] == sys.peers[op.source]
  {
    var outcome := Submitted(LimitsOf(cfg, x), [r], op.Key());
    assert Find([r], op.Key()) == Some(r);
    assert Without([r], op.Key()) == [];
    assert outcome.result.value.relayStatus == Some(SignalFor(op, SentToDestinationTransport));
    assert OrderedHopSubmittedStep(cfg, sys, x, op.Key(), Done) == Apply(sys, x, x, outcome, None, Done);
  }

  lemma ReportsThroughRelay(cfg: Config, sys: System, x: PeerId, op: Operation)
    requires Carriable(sys, x, op) && op.destination != x && Fits(cfg, op) && op.mode == ReliableOrdered
    requires sys.nextHop + 1 !in sys.peers[x].hops
    requires op.id in sys.peers[op.source].handles && !sys.peers[op.source].handles[op.id].Terminal()
    ensures exists later :: ReportsSent(cfg, sys, later, op)
  {
    var end := Run(cfg, sys, Carrying(sys, x, op));
    CarriedByRelay(cfg, sys, x, op);
    SubmittedSendsStatus(cfg, end, x, op, end.peers[x].relays[0]);
    RunSnoc(cfg, sys, Carrying(sys, x, op), OrderedHopSubmitted(x, op.Key()));
    ThenReports(cfg, sys, Carrying(sys, x, op) + [OrderedHopSubmitted(x, op.Key())], x, op);
  }

  // A destination that coordinates takes the operation itself and says so.
  lemma ReportsThroughDestination(cfg: Config, sys: System, op: Operation)
    requires Carriable(sys, op.destination, op) && op.mode == ReliableOrdered
    requires op.id in sys.peers[op.source].handles && !sys.peers[op.source].handles[op.id].Terminal()
    ensures exists later :: ReportsSent(cfg, sys, later, op)
  {
    var x := op.destination;
    CarryingRuns(cfg, sys, x, op);
    SentAgain(sys, x, op);
    AdoptedBoth(sys, x, op);
    TakenAtHome(cfg, Sent(sys, x, op), op, sys.nextHop);
    ThenReports(cfg, sys, Carrying(sys, x, op), x, op);
  }

  lemma TakenAtHome(cfg: Config, sent: System, op: Operation, hop: nat)
    requires var x := op.destination; x in sent.peers && op.source in sent.peers && op.source != x && op.mode == ReliableOrdered
    requires Reliable(op.source, op.destination, hop, op) in sent.net
    requires var (x, q) := (op.destination, sent.peers[op.destination]);
             q.open && q.coordinator == x && q.members == Group(x, op) && q.relays == []
    ensures var end := ReceiveStep(cfg, sent, op.destination, Reliable(op.source, op.destination, hop, op), true, Done);
            && RouteStatus(op.destination, op.source, SignalFor(op, SentToDestinationTransport)) in end.net
            && op.source in end.peers && end.peers[op.source] == sent.peers[op.source]
  {
    var x := op.destination;
    var outcome := Admitted(LimitsOf(cfg, x), [], Relay(op, sent.nextHop, |op.bytes|), hop, Group(x, op), true);
    assert outcome.result.value.relayStatus == Some(SignalFor(op, SentToDestinationTransport));
    assert ReceiveStep(cfg, sent, x, Reliable(op.source, x, hop, op), true, Done)
           == Apply(Bind(sent, op, true), x, op.source, outcome, None, Done);
  }

  // What an accepted send of a member leaves: the operation is live and its handle waits.
  lemma MemberSendIsLive(cfg: Config, sys: System, e: Event)
    requires AcceptedSend(cfg, sys, e) && sys.peers[e.source].coordinator != e.source
    ensures var (next, op) := (Step(cfg, sys, e), Originated(sys, e));
            && next.peers.Keys == sys.peers.Keys && op.destination != op.source
            && next.peers[op.source].open
            && op.id in next.peers[op.source].sends.live && next.peers[op.source].sends.live[op.id] == op
            && (forall x :: x in sys.peers && x != op.source ==> next.peers[x] == sys.peers[x])
  {
    var op := Originated(sys, e);
    MemberOrigin(cfg, Named(sys, e.source, op), e.source, op, e.ready);
  }

  lemma MemberSendCanReport(cfg: Config, start: System, past: seq<Event>, e: Event, x: PeerId)
    requires Initial(start) && SafeRun(cfg, start, past)
    requires var sys := Run(cfg, start, past);
             && AcceptedSend(cfg, sys, e) && e.mode == ReliableOrdered && CanCarry(cfg, sys, x, Originated(sys, e))
             && sys.peers[e.source].coordinator != e.source
    ensures var sys := Run(cfg, start, past);
            exists later :: ReportsSent(cfg, Step(cfg, sys, e), later, Originated(sys, e))
  {
    var sys := Run(cfg, start, past);
    var next, op := Step(cfg, sys, e), Originated(sys, e);
    EveryRunShaped(cfg, start, past);
    StepKeepsInv(cfg, sys, e);
    StepKeepsShape(cfg, sys, e);
    MemberSendIsLive(cfg, sys, e);
    assert PeerSound(next, x, next.peers[x]) && PeerShaped(cfg, next, x, next.peers[x]);
    if x == op.destination { ReportsThroughDestination(cfg, next, op); } else { ReportsThroughRelay(cfg, next, x, op); }
  }

  // While another open peer can take the operation, an accepted reliable-ordered send has
  // a continuation that reports SENT_TO_TRANSPORT exactly when its source is not its own
  // coordinator.
  lemma CanReportSentIff(cfg: Config, start: System, past: seq<Event>, e: Event, x: PeerId)
    requires Initial(start) && SafeRun(cfg, start, past)
    requires var sys := Run(cfg, start, past);
             AcceptedSend(cfg, sys, e) && e.mode == ReliableOrdered && CanCarry(cfg, sys, x, Originated(sys, e))
    ensures var sys := Run(cfg, start, past);
            (exists later :: ReportsSent(cfg, Step(cfg, sys, e), later, Originated(sys, e)))
            <==> sys.peers[e.source].coordinator != e.source
  {
    var sys := Run(cfg, start, past);
    if sys.peers[e.source].coordinator != e.source {
      MemberSendCanReport(cfg, start, past, e, x);
    } else {
      assert AllIdsUsed(start);
      RunIdsUsed(cfg, start, past);
      forall later ensures !ReportsSent(cfg, Step(cfg, sys, e), later, Originated(sys, e)) {
        OwnSendNeverReportsSent(cfg, sys, e, later);
      }
    }
  }
}
