/**
 Acknowledged and never delivered: both the destination and a coordinator that is itself
 the destination answer for an operation before the session has seen it. Two runs in
 which the session is gone by then, and one in which an open session never sees it.
 */
module DroppedDeliveries {
  import opened Types
  import opened RelayTable
  import opened RelayController
  import MR = MemberRouter
  import opened RoutedDelivery
  import opened AckSoundness
  import opened RoutedGuarantees
  import opened Dedup
  import ST = StaleTraffic

  // The source's handle is acknowledged; the destination holds nothing of the operation
  // and its session refused it.
  ghost predicate AcknowledgedButLost(sys: System, op: Operation) {
    && ReportsDelivery(sys, op.source, op.id)
    && op.destination in sys.peers
    && (var q := sys.peers[op.destination]; op in q.dropped && op !in q.delivered && op !in q.handoff)
  }

  // ---------- the destination is the coordinator ----------

  // Peer 1 sends to peer 2, which coordinates.
  const TO_COORDINATOR := Operation(1, 2, 0, ReliableAcked, Normal, [])

  function CalledHome(): System {
    ST.Beginning().(
      peers := ST.Beginning().peers[1 := ST.Fresh().(
        sends := MR.Sends(map[0 := TO_COORDINATOR], map[]), nextId := 1, handles := map[0 := Transmitting],
        passes := [Pass(2, [TO_COORDINATOR], true)])],
      issued := map[TO_COORDINATOR.Key() := TO_COORDINATOR])
  }

  function Origin(): System {
    CalledHome().(
      peers := CalledHome().peers[1 := CalledHome().peers[1].(
        passes := [ST.SUBMITTED], hops := map[0 := Hop(TO_COORDINATOR.Key(), 2, false)])],
      net := {Reliable(1, 2, 0, TO_COORDINATOR)}, bound := map[0 := Binding(TO_COORDINATOR, false)], nextHop := 1)
  }

  const RECEIPT := DeliveryAck(2, 1, ReceiptFor(TO_COORDINATOR))

  function Queued(): System {
    Origin().(peers := Origin().peers[2 := ST.Fresh().(handoff := [TO_COORDINATOR])],
              net := Origin().net + {GenericAck(2, 1, 0), RECEIPT},
              bound := Origin().bound[1 := Binding(TO_COORDINATOR, true)], nextHop := 2)
  }

  const LOST_AT_COORDINATOR: seq<Event> := [
    Originate(1, 2, ReliableAcked, Normal, [], true),
    Submits(1, 0, true),
    Receive(2, Reliable(1, 2, 0, TO_COORDINATOR), true),
    Leave(2),
    HandOff(2),
    SignalArrives(1, RECEIPT)]

  lemma CalledHomeStep()
    ensures Step(ST.CFG, ST.Beginning(), LOST_AT_COORDINATOR[0]) == CalledHome()
  {
    var named := Named(ST.Beginning(), 1, TO_COORDINATOR);
    var q := named.peers[1];
    assert MR.Begin(q.sends, ST.CFG.caps, ViewOf(1, q), TO_COORDINATOR)
           == (Ok(Transmitting), MR.Sends(map[0 := TO_COORDINATOR], map[]));
    assert [] + [Pass(2, [TO_COORDINATOR], true)] == [Pass(2, [TO_COORDINATOR], true)];
  }

  lemma OriginStep()
    ensures Step(ST.CFG, CalledHome(), LOST_AT_COORDINATOR[1]) == Origin()
  {
    assert [TO_COORDINATOR][1..] == [];
    assert [Pass(2, [TO_COORDINATOR], true)][0 := ST.SUBMITTED] == [ST.SUBMITTED];
    assert map[][0 := Hop(TO_COORDINATOR.Key(), 2, false)] == map[0 := Hop(TO_COORDINATOR.Key(), 2, false)];
    assert {} + {Reliable(1, 2, 0, TO_COORDINATOR)} == {Reliable(1, 2, 0, TO_COORDINATOR)};
  }

  lemma QueuedStep()
    ensures Step(ST.CFG, Origin(), LOST_AT_COORDINATOR[2]) == Queued()
  {
    var outcome := Admitted(LimitsOf(ST.CFG, 2), [], Relay(TO_COORDINATOR, 1, 0), 0, ST.EVERYONE, true);
    assert outcome == Outcome(Ok(Actions(sourceHopAck := Some(0), deliver := Some(TO_COORDINATOR),
                                         deliveryAck := Some(ReceiptFor(TO_COORDINATOR)))), []);
    assert Performed(ST.Fresh(), outcome.result.value, None) == Queued().peers[2];
    assert Emitted(2, 1, outcome.result.value) == {GenericAck(2, 1, 0), RECEIPT};
    assert Apply(Bind(Origin(), TO_COORDINATOR, true), 2, 1, outcome, None, Done) == Queued();
  }

  function Refusing(): System {
    Queued().(peers := Queued().peers[2 := ST.Fresh().(open := false, dropped := {TO_COORDINATOR})])
  }

  lemma RefusedStep()
    ensures Step(ST.CFG, Step(ST.CFG, Queued(), Leave(2)), HandOff(2)) == Refusing()
  {
    HandOffRefused(Step(ST.CFG, Queued(), Leave(2)), 2, TO_COORDINATOR);
    assert {} + {TO_COORDINATOR} == {TO_COORDINATOR};
  }

  // A closed session drops the only operation that waits for it.
  lemma HandOffRefused(sys: System, d: PeerId, op: Operation)
    requires d in sys.peers && sys.peers[d].handoff == [op] && !sys.peers[d].open
    ensures HandOffStep(sys, d)
            == With(sys, d, sys.peers[d].(handoff := [], dropped := sys.peers[d].dropped + {op}), {})
  {
    assert sys.peers[d].handoff[1..] == [];
  }

  lemma ReportedStep()
    ensures AcknowledgedButLost(Step(ST.CFG, Refusing(), SignalArrives(1, RECEIPT)), TO_COORDINATOR)
  {
    AckedStepApplies();
  }

  lemma AckedStepApplies()
    ensures SignalArrivesStep(Refusing(), 1, RECEIPT, Done)
            == With(Refusing(), 1, Complete(AfterAck(Refusing().peers[1], 0), 0, RemoteAcknowledged), {})
  {
    var q := Refusing().peers[1];
    assert MR.OnDeliveryAck(q.sends, ViewOf(1, q), 2, ReceiptFor(TO_COORDINATOR)).0 == Ok(MR.Applied(RemoteAcknowledged));
  }

  lemma Submitted()
    ensures Initial(ST.Beginning())
    ensures Run(ST.CFG, ST.Beginning(), LOST_AT_COORDINATOR[..2]) == Origin()
  {
    var events := LOST_AT_COORDINATOR;
    CalledHomeStep();
    OriginStep();
    RunTwo(ST.CFG, ST.Beginning(), events[0], events[1]);
    assert events[..2] == [events[0], events[1]];
  }

  lemma QueuedUp()
    ensures Run(ST.CFG, ST.Beginning(), LOST_AT_COORDINATOR[..3]) == Queued()
  {
    Submitted();
    QueuedStep();
    RunSnoc(ST.CFG, ST.Beginning(), LOST_AT_COORDINATOR[..2], LOST_AT_COORDINATOR[2]);
    assert LOST_AT_COORDINATOR[..3] == LOST_AT_COORDINATOR[..2] + [LOST_AT_COORDINATOR[2]];
  }

  // A delivery ACK from a coordinator whose own session never delivered the operation.
  lemma LostAtCoordinator()
    ensures Initial(ST.Beginning())
    ensures AcknowledgedButLost(Run(ST.CFG, ST.Beginning(), LOST_AT_COORDINATOR), TO_COORDINATOR)
  {
    var events := LOST_AT_COORDINATOR;
    Submitted();
    QueuedUp();
    RefusedStep();
    ReportedStep();
    RunTwo(ST.CFG, Queued(), events[3], events[4]);
    RunConcat(ST.CFG, ST.Beginning(), events[..3], [events[3], events[4]]);
    RunSnoc(ST.CFG, ST.Beginning(), events[..3] + [events[3], events[4]], events[5]);
    assert events == events[..3] + [events[3], events[4]] + [events[5]];
  }

  // ---------- the destination is a member ----------

  const LOST_AT_DESTINATION: seq<Event> := [
    Receive(3, ST.FIRST, true),
    Leave(3),
    HandOff(3),
    AckArrives(2, ST.ANSWER),
    SignalArrives(1, DeliveryAck(2, 1, ReceiptFor(ST.OP)))]

  const ROUTED := ST.Fresh().(routedIn := Some(Committing(2, ST.EVERYONE)), routed := [ST.OP])

  function Taken(): System {
    ST.Forwarded().(peers := ST.Forwarded().peers[3 := ROUTED.(handoff := [ST.OP])], net := ST.Forwarded().net + {ST.ANSWER})
  }

  function Gone(): System {
    Taken().(peers := Taken().peers[3 := ROUTED.(open := false, dropped := {ST.OP})])
  }

  lemma TakenStep()
    ensures Step(ST.CFG, ST.Forwarded(), LOST_AT_DESTINATION[0]) == Taken()
  {
    FirstArrival(Done);
    assert ST.Forwarded().net + {ST.ANSWER} == Taken().net;
  }

  // The first arrival of the operation at its destination.
  lemma FirstArrival(reach: Reach)
    ensures AtDestination(ST.Fresh(), 3, ST.FIRST, reach)
            == if reach == AckFails then (ROUTED.(swallowed := {ST.OP}), {}) else (ROUTED.(handoff := [ST.OP]), {ST.ANSWER})
  {
    assert [] + [ST.OP] == [ST.OP] && {} + {ST.OP} == {ST.OP};
    assert Lookup([], ST.OP.Key()) == None;
    assert Routing(ST.Fresh()) == ST.Fresh().(routedIn := Some(Committing(2, ST.EVERYONE)));
  }

  lemma GoneStep()
    ensures Step(ST.CFG, Step(ST.CFG, Taken(), Leave(3)), HandOff(3)) == Gone()
  {
    HandOffRefused(Step(ST.CFG, Taken(), Leave(3)), 3, ST.OP);
    assert {} + {ST.OP} == {ST.OP};
  }

  // The answer of the destination reaches the coordinator, and its receipt the source.
  lemma AnswerReported(sys: System)
    requires 1 in sys.peers && 2 in sys.peers && 3 in sys.peers && ST.ANSWER in sys.net
    requires sys.peers[1] == ST.Forwarded().peers[1] && sys.peers[2] == ST.Coordinator()
    ensures var end := Run(ST.CFG, sys, LOST_AT_DESTINATION[3..]);
            ReportsDelivery(end, 1, 0) && 3 in end.peers && end.peers[3] == sys.peers[3]
  {
    var c := ST.Coordinator();
    var outcome := Acknowledged(LimitsOf(ST.CFG, 2), c.relays, ST.OP.Key());
    assert Find(c.relays, ST.OP.Key()) == Some(Relay(ST.OP, 1, 0));
    assert outcome.result.value.deliveryAck == Some(ReceiptFor(ST.OP));
    var rest := With(sys, 2, c.(hops := WithoutHop(c.hops, 1)), {});
    var answered := AckArrivesStep(ST.CFG, sys, 2, ST.ANSWER, Done);
    assert answered == Apply(rest, 2, 2, outcome, Some(0), Done);
    RunTwo(ST.CFG, sys, LOST_AT_DESTINATION[3], LOST_AT_DESTINATION[4]);
    assert LOST_AT_DESTINATION[3..] == [LOST_AT_DESTINATION[3], LOST_AT_DESTINATION[4]];
    assert answered.peers[1] == sys.peers[1] && answered.peers[3] == sys.peers[3];
    ReceiptReported(answered);
  }

  lemma ReceiptReported(answered: System)
    requires 1 in answered.peers && 3 in answered.peers && answered.peers[1] == ST.Forwarded().peers[1]
    requires DeliveryAck(2, 1, ReceiptFor(ST.OP)) in answered.net
    ensures var end := Step(ST.CFG, answered, LOST_AT_DESTINATION[4]);
            ReportsDelivery(end, 1, 0) && 3 in end.peers && end.peers[3] == answered.peers[3]
  {
    var q := answered.peers[1];
    assert MR.OnDeliveryAck(q.sends, ViewOf(1, q), 2, ReceiptFor(ST.OP)).0 == Ok(MR.Applied(RemoteAcknowledged));
  }

  // The destination acknowledges the hop, leaves, and its session refuses the operation.
  lemma LostAtDestination()
    ensures AcknowledgedButLost(Run(ST.CFG, ST.Beginning(), ST.UNTIL_REGAINED[..3] + LOST_AT_DESTINATION), ST.OP)
  {
    var events := LOST_AT_DESTINATION;
    ST.RunUntilForwarded();
    TakenStep();
    GoneStep();
    AnswerReported(Gone());
    RunOne(ST.CFG, ST.Forwarded(), events[0]);
    RunTwo(ST.CFG, Taken(), events[1], events[2]);
    RunConcat(ST.CFG, ST.Forwarded(), [events[0]], [events[1], events[2]]);
    RunConcat(ST.CFG, ST.Forwarded(), [events[0]] + [events[1], events[2]], events[3..]);
    assert events == [events[0]] + [events[1], events[2]] + events[3..];
    RunConcat(ST.CFG, ST.Beginning(), ST.UNTIL_REGAINED[..3], events);
  }

  // ---------- the answer cannot be submitted ----------

  // The destination's link closes while it answers the hop; after the session resumes the
  // hop comes again, and its router takes it for a duplicate.
  const LOST_TO_FAILED_ACK: seq<Event> := [
    Receive(3, ST.FIRST, true, AckFails),
    Receive(3, ST.FIRST, true)] + LOST_AT_DESTINATION[3..]

  function Swallowed(): System {
    ST.Forwarded().(peers := ST.Forwarded().peers[3 := ROUTED.(swallowed := {ST.OP})])
  }

  function AnsweredAgain(): System { Swallowed().(net := Swallowed().net + {ST.ANSWER}) }

  lemma SwallowedStep()
    ensures Step(ST.CFG, ST.Forwarded(), LOST_TO_FAILED_ACK[0]) == Swallowed()
  {
    FirstArrival(AckFails);
  }

  lemma AnsweredAgainStep()
    ensures Step(ST.CFG, Swallowed(), LOST_TO_FAILED_ACK[1]) == AnsweredAgain()
  {
    var q := Swallowed().peers[3];
    assert Routing(q) == q;
    assert Lookup([ST.OP], ST.OP.Key()) == Some(ST.OP);
    assert AtDestination(q, 3, ST.FIRST, Done) == (q, {ST.ANSWER});
    assert Swallowed().peers[3 := q] == Swallowed().peers;
  }

  lemma FailedAckRuns()
    ensures var end := Run(ST.CFG, ST.Forwarded(), LOST_TO_FAILED_ACK);
            ReportsDelivery(end, 1, 0) && 3 in end.peers && end.peers[3] == Swallowed().peers[3]
  {
    var events := LOST_TO_FAILED_ACK;
    SwallowedStep();
    AnsweredAgainStep();
    AnswerReported(AnsweredAgain());
    RunTwo(ST.CFG, ST.Forwarded(), events[0], events[1]);
    RunConcat(ST.CFG, ST.Forwarded(), [events[0], events[1]], LOST_AT_DESTINATION[3..]);
    assert events == [events[0], events[1]] + LOST_AT_DESTINATION[3..];
  }

  // Nothing is delivered, queued or refused, although the session is open and has the
  // source, and no stale traffic was answered.
  lemma LostToFailedAck()
    ensures var events := ST.UNTIL_REGAINED[..3] + LOST_TO_FAILED_ACK;
            var end := Run(ST.CFG, ST.Beginning(), events);
            && (forall i :: 0 <= i < |events| ==> !events[i].ReceiveStale?)
            && ReportsDelivery(end, 1, 0) && 3 in end.peers && !HandedOver(end.peers[3], ST.OP)
            && end.peers[3].open && 1 in end.peers[3].members
  {
    FailedAckRuns();
    ST.RunUntilForwarded();
    RunConcat(ST.CFG, ST.Beginning(), ST.UNTIL_REGAINED[..3], LOST_TO_FAILED_ACK);
  }
}
