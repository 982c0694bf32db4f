/**
 A signal whose generic ACK cannot be submitted: its send is gone and its handle is left
 as it was, for good.
 */
module LostSignals {
  import opened Types
  import opened RelayTable
  import opened RelayController
  import opened RoutedDelivery
  import opened HandleLaws
  import opened Provenance

  lemma NextSuccessIsOwn(cfg: Config, sys: System, e: Event, p: PeerId, id: GroupMessageId, state: SendState)
    requires AllIdsUsed(sys) && p in sys.peers && Success(state) && id !in sys.peers[p].sends.live && !Shows(sys.peers[p], id, state)
    ensures p in Step(cfg, sys, e).peers
    ensures Shows(Step(cfg, sys, e).peers[p], id, state) && id < sys.peers[p].nextId ==>
              e.AckArrives? && e.to == p && AnswersOwnRelay(sys, p, e.message, id)
  {
    Elsewhere(cfg, sys, e, p);
    if Shows(Step(cfg, sys, e).peers[p], id, state) && id < sys.peers[p].nextId { OnlyTwoArrivalsSucceed(cfg, sys, e, p, id, state); }
  }

  // A send that left the table and has no relay at its own source reports no success.
  lemma {:induction false} NeverSucceeds(cfg: Config, sys: System, events: seq<Event>, p: PeerId, id: GroupMessageId, state: SendState)
    requires Grounded(sys) && AllIdsUsed(sys) && p in sys.peers && Success(state) && NoOwnRelay(sys.peers[p], p, id)
    requires id !in sys.peers[p].sends.live && !Shows(sys.peers[p], id, state)
    ensures var end := Run(cfg, sys, events);
            p in end.peers && NoOwnRelay(end.peers[p], p, id) && !Shows(end.peers[p], id, state)
  {
    if events != [] {
      var front, e := events[..|events| - 1], events[|events| - 1];
      var before := Run(cfg, sys, front);
      NeverSucceeds(cfg, sys, front, p, id, state);
      NeverLiveAgain(cfg, sys, front, p, id);
      RunIdsUsed(cfg, sys, front);
      RunStaysGrounded(cfg, sys, front);
      StepKeepsNoOwnRelay(cfg, before, e, p, id);
      NextSuccessIsOwn(cfg, before, e, p, id, state);
    }
  }

  lemma UnansweredSignalTakes(sys: System, m: Message, p: PeerId)
    requires AllIdsUsed(sys) && SignalArrivesStep(sys, p, m, AckFails) != sys
    ensures p in sys.peers && (m.DeliveryAck? || m.RouteStatus?)
    ensures var id := if m.DeliveryAck? then m.receipt.key.id else m.signal.key.id;
            var next := SignalArrivesStep(sys, p, m, AckFails);
            && AllIdsUsed(next) && p in next.peers && next.peers[p].nextId == sys.peers[p].nextId
            && next.peers[p].relays == sys.peers[p].relays
            && id in sys.peers[p].sends.live && id !in next.peers[p].sends.live && next.peers[p].handles == sys.peers[p].handles
  {
    SignalSettles(sys, p, m, AckFails);
    forall other | other in SignalArrivesStep(sys, p, m, AckFails).peers ensures IdsUsed(SignalArrivesStep(sys, p, m, AckFails).peers[other]) {
      assert IdsUsed(sys.peers[other]);
    }
  }

  // After any run the coordinator's signal for a live send arrives, and its generic ACK
  // cannot be submitted: the send leaves the table, its handle is not completed, and no
  // later run makes it a success.
  lemma UnansweredSignalNeverSucceeds(cfg: Config, start: System, past: seq<Event>, m: Message, events: seq<Event>, p: PeerId, state: SendState)
    requires Initial(start) && Success(state) && SignalArrivesStep(Run(cfg, start, past), p, m, AckFails) != Run(cfg, start, past)
    ensures p in Run(cfg, start, past).peers && (m.DeliveryAck? || m.RouteStatus?)
    ensures var id := if m.DeliveryAck? then m.receipt.key.id else m.signal.key.id;
            var sys := Run(cfg, start, past);
            var next := SignalArrivesStep(sys, p, m, AckFails);
            var end := Run(cfg, next, events);
            && id in sys.peers[p].sends.live && id !in next.peers[p].sends.live && next.peers[p].handles == sys.peers[p].handles
            && p in end.peers && (Shows(end.peers[p], id, state) <==> Shows(sys.peers[p], id, state))
  {
    assert AllIdsUsed(start);
    RunIdsUsed(cfg, start, past);
    EveryRunGrounded(cfg, start, past);
    NothingAfterTheSignal(cfg, Run(cfg, start, past), m, events, p, state);
  }

  lemma NothingAfterTheSignal(cfg: Config, sys: System, m: Message, events: seq<Event>, p: PeerId, state: SendState)
    requires Grounded(sys) && AllIdsUsed(sys) && Success(state) && SignalArrivesStep(sys, p, m, AckFails) != sys
    ensures p in sys.peers && (m.DeliveryAck? || m.RouteStatus?)
    ensures var id := if m.DeliveryAck? then m.receipt.key.id else m.signal.key.id;
            var next := SignalArrivesStep(sys, p, m, AckFails);
            var end := Run(cfg, next, events);
            && id in sys.peers[p].sends.live && id !in next.peers[p].sends.live && next.peers[p].handles == sys.peers[p].handles
            && p in end.peers && (Shows(end.peers[p], id, state) <==> Shows(sys.peers[p], id, state))
  {
    var id := if m.DeliveryAck? then m.receipt.key.id else m.signal.key.id;
    UnansweredSignalTakes(sys, m, p);
    LiveHasNoRelay(sys, p, id);
    SignalStaysGrounded(sys, p, m, AckFails);
    SettledEitherWay(cfg, SignalArrivesStep(sys, p, m, AckFails), events, p, id, state);
  }

  lemma LiveHasNoRelay(sys: System, p: PeerId, id: GroupMessageId)
    requires Grounded(sys) && AllIdsUsed(sys) && p in sys.peers && id in sys.peers[p].sends.live
    ensures NoOwnRelay(sys.peers[p], p, id)
  {
    assert PeerGrounded(sys, p, sys.peers[p]) && IdsUsed(sys.peers[p]);
  }

  lemma SettledEitherWay(cfg: Config, sys: System, events: seq<Event>, p: PeerId, id: GroupMessageId, state: SendState)
    requires Grounded(sys) && AllIdsUsed(sys) && p in sys.peers && Success(state) && NoOwnRelay(sys.peers[p], p, id)
    requires id !in sys.peers[p].sends.live
    ensures var end := Run(cfg, sys, events); p in end.peers && (Shows(end.peers[p], id, state) <==> Shows(sys.peers[p], id, state))
  {
    if Shows(sys.peers[p], id, state) {
      TerminalForever(cfg, sys, events, p, id);
    } else {
      NeverSucceeds(cfg, sys, events, p, id, state);
    }
  }
}
