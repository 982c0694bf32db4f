/**
 The guarantees of routed reliable delivery over every run: what REMOTE_ACKNOWLEDGED
 means, which payload it stands for, and exactly when a session loses an operation that
 was answered for.
 */
module RoutedGuarantees {
  import opened Types
  import opened RelayTable
  import opened RelayController
  import opened Dedup
  import opened RoutedDelivery
  import opened AckSoundness
  import opened HandOvers

  // ---------- acknowledgement soundness ----------

  // What a destination's answer to stale traffic must meet, in the state of that moment:
  // the operation is committed, or an ACK of this hop can no longer complete its handle.
  ghost predicate SafeAnswer(sys: System, m: Message)
    requires m.Reliable?
  {
    m.hop in sys.bound && sys.bound[m.hop].finalHop ==> Committed(sys, m.op) || Harmless(sys, m.from, m.hop, m.op)
  }

  ghost predicate SafeEvent(sys: System, e: Event) {
    e.ReceiveStale? && e.message.Reliable? ==> SafeAnswer(sys, e.message)
  }

  ghost predicate SafeRun(cfg: Config, start: System, events: seq<Event>) {
    forall i :: 0 <= i < |events| ==> SafeEvent(Run(cfg, start, events[..i]), events[i])
  }

  lemma StaleKeepsInv(sys: System, p: PeerId, m: Message)
    requires Inv(sys) && m.Reliable? && SafeAnswer(sys, m)
    ensures Inv(ReceiveStaleStep(sys, p, m))
  {
    if ReceiveStaleStep(sys, p, m) != sys {
      assert MessageSound(sys, m);
      AddMessages(sys, p, {GenericAck(p, m.from, m.hop)});
      assert sys.peers == sys.peers[p := sys.peers[p]];
      assert ReceiveStaleStep(sys, p, m) == sys.(net := sys.net + {GenericAck(p, m.from, m.hop)});
    }
  }

  lemma StepKeepsInv(cfg: Config, sys: System, e: Event)
    requires Inv(sys) && SafeEvent(sys, e)
    ensures Inv(Step(cfg, sys, e))
  {
    match e
    case Originate(_, _, _, _, _, _, _) => OriginateKeepsInv(cfg, sys, e);
    case RerouteBegins(p, order, onlyOrdered) => RerouteBeginsKeepsInv(sys, p, order, onlyOrdered);
    case Submits(p, k, submitted) => SubmitsKeepsInv(sys, p, k, submitted);
    case Receive(p, m, ready, reach) => ReceiveKeepsInv(cfg, sys, p, m, ready, reach);
    case ReceiveStale(p, m) => if m.Reliable? { StaleKeepsInv(sys, p, m); }
    case HandOff(p) => HandOffKeepsInv(sys, p);
    case AckArrives(p, m, reach) => AckArrivesKeepsInv(cfg, sys, p, m, reach);
    case HopTimesOut(p, hop, reach) => HopTimesOutKeepsInv(cfg, sys, p, hop, reach);
    case OrderedHopSubmitted(p, key, reach) => if p in sys.peers { SubmittedKeepsInv(cfg, sys, p, key, reach); }
    case ForwardFails(p, key, reach) => if p in sys.peers { FailureKeepsInv(cfg, sys, p, key, DestinationUnavailable, reach); }
    case SignalArrives(p, m, reach) => SignalKeepsInv(sys, p, m, reach);
    case _ => GivingUpKeepsInv(cfg, sys, e);
  }

  lemma {:induction false} SafeRunKeepsInv(cfg: Config, start: System, events: seq<Event>)
    requires Inv(start) && SafeRun(cfg, start, events)
    ensures Inv(Run(cfg, start, events))
  {
    if events != [] {
      var front, n := events[..|events| - 1], |events| - 1;
      SafePrefix(cfg, start, events);
      SafeRunKeepsInv(cfg, start, front);
      assert SafeEvent(Run(cfg, start, events[..n]), events[n]);
      StepKeepsInv(cfg, Run(cfg, start, front), events[n]);
    }
  }

  lemma InitialInv(sys: System)
    requires Initial(sys)
    ensures Inv(sys)
  {
  }

  predicate ReportsDelivery(sys: System, p: PeerId, id: GroupMessageId) {
    p in sys.peers && id in sys.peers[p].handles && sys.peers[p].handles[id] == RemoteAcknowledged
  }

  lemma AcknowledgedIsCommitted(cfg: Config, start: System, events: seq<Event>, p: PeerId, id: GroupMessageId)
    requires Initial(start) && SafeRun(cfg, start, events)
    requires ReportsDelivery(Run(cfg, start, events), p, id)
    ensures var end := Run(cfg, start, events);
            MessageKey(p, id) in end.issued && Committed(end, end.issued[MessageKey(p, id)])
  {
    InitialInv(start);
    SafeRunKeepsInv(cfg, start, events);
    var end := Run(cfg, start, events);
    assert PeerSound(end, p, end.peers[p]);
  }

  // ---------- exactly that payload ----------

  lemma IssuedStays(cfg: Config, sys: System, e: Event, key: MessageKey)
    requires Inv(sys) && key in sys.issued
    ensures key in Step(cfg, sys, e).issued && Step(cfg, sys, e).issued[key] == sys.issued[key]
  {
    if e.Originate? {
      OriginateKeepsIssued(cfg, sys, e, key);
    } else {
      OnlyOriginateIssues(cfg, sys, e);
    }
  }

  lemma OriginateKeepsIssued(cfg: Config, sys: System, e: Event, key: MessageKey)
    requires Inv(sys) && key in sys.issued && e.Originate?
    ensures key in Step(cfg, sys, e).issued && Step(cfg, sys, e).issued[key] == sys.issued[key]
  {
    if e.source in sys.peers {
      assert SourceSound(sys, e.source, sys.peers[e.source]) by { assert PeerSound(sys, e.source, sys.peers[e.source]); }
    }
  }

  lemma OnlyOriginateIssues(cfg: Config, sys: System, e: Event)
    requires !e.Originate?
    ensures Step(cfg, sys, e).issued == sys.issued
  {
  }

  lemma {:induction false} IssuedForever(cfg: Config, start: System, events: seq<Event>, key: MessageKey)
    requires Inv(start) && SafeRun(cfg, start, events) && key in start.issued
    ensures key in Run(cfg, start, events).issued && Run(cfg, start, events).issued[key] == start.issued[key]
  {
    if events != [] {
      SafePrefix(cfg, start, events);
      IssuedForever(cfg, start, events[..|events| - 1], key);
      SafeRunKeepsInv(cfg, start, events[..|events| - 1]);
      IssuedStays(cfg, Run(cfg, start, events[..|events| - 1]), events[|events| - 1], key);
    }
  }

  lemma SafePrefix(cfg: Config, start: System, events: seq<Event>)
    requires events != [] && SafeRun(cfg, start, events)
    ensures SafeRun(cfg, start, events[..|events| - 1])
  {
    var front := events[..|events| - 1];
    forall i | 0 <= i < |front| ensures SafeEvent(Run(cfg, start, front[..i]), front[i]) {
      assert front[..i] == events[..i];
      assert SafeEvent(Run(cfg, start, events[..i]), events[i]);
    }
  }

  // What an accepted send call names is what its bytes stay.
  lemma OriginatedContent(cfg: Config, sys: System, e: Event)
    requires e.Originate? && Step(cfg, sys, e) != sys
    ensures e.source in sys.peers
    ensures var op := Operation(e.source, e.destination, sys.peers[e.source].nextId, e.mode, e.priority, e.bytes);
            op.Key() in Step(cfg, sys, e).issued && Step(cfg, sys, e).issued[op.Key()] == op
  {
  }

  // ---------- what acknowledged means for the session ----------

  // The event gives this operation to a session that is closed or lacks its source.
  predicate Refuses(sys: System, e: Event, op: Operation) {
    && e.HandOff? && e.at in sys.peers && sys.peers[e.at].handoff != [] && sys.peers[e.at].handoff[0] == op
    && !(sys.peers[e.at].open && op.source in sys.peers[e.at].members)
  }

  // Some event up to here gave the operation to the session of `d` and was refused.
  ghost predicate Refused(cfg: Config, start: System, events: seq<Event>, d: PeerId, op: Operation) {
    exists i :: 0 <= i < |events| && events[i] == HandOff(d) && Refuses(Run(cfg, start, events[..i]), events[i], op)
  }

  // No operation waits for the session of its own source.
  predicate ForeignHandoff(p: PeerId, q: Peer) {
    forall op :: op in q.handoff ==> op.source != p
  }

  // The session never meets a collision, so a refusal is its only reason to drop.
  lemma HandOffDrops(sys: System, d: PeerId, op: Operation)
    requires Inv(sys) && d in sys.peers && ForeignHandoff(d, sys.peers[d])
    ensures var q' := HandOffStep(sys, d).peers[d];
            && ForeignHandoff(d, q')
            && (op in q'.dropped <==> op in sys.peers[d].dropped || Refuses(sys, HandOff(d), op))
  {
    var q := sys.peers[d];
    if q.handoff != [] {
      assert PeerSound(sys, d, q);
      var found := Lookup(q.session, q.handoff[0].Key());
      if found.Some? { assert Accepted(q, found.value) && Accepted(q, q.handoff[0]); }
    }
  }

  lemma StepDrops(cfg: Config, sys: System, e: Event, d: PeerId, op: Operation)
    requires Inv(sys) && d in sys.peers && ForeignHandoff(d, sys.peers[d])
    ensures var sys' := Step(cfg, sys, e);
            && d in sys'.peers && ForeignHandoff(d, sys'.peers[d])
            && (op in sys'.peers[d].dropped <==> op in sys.peers[d].dropped || (e == HandOff(d) && Refuses(sys, e, op)))
  {
    if e == HandOff(d) {
      HandOffDrops(sys, d, op);
    } else if e.Receive? {
      ReceiveEffect(cfg, sys, e, d);
    } else if !e.HandOff? {
      OthersSameRecords(cfg, sys, e, d);
    }
  }

  // The session drops an operation exactly when it is closed, or lacks the source, at the
  // moment the operation is handed to it.
  lemma {:induction false} DroppedIffRefused(cfg: Config, start: System, events: seq<Event>, d: PeerId, op: Operation)
    requires Initial(start) && SafeRun(cfg, start, events) && d in start.peers
    ensures var end := Run(cfg, start, events);
            && d in end.peers && ForeignHandoff(d, end.peers[d])
            && (op in end.peers[d].dropped <==> Refused(cfg, start, events, d, op))
  {
    if events != [] {
      var front, n := events[..|events| - 1], |events| - 1;
      SafePrefix(cfg, start, events);
      InitialInv(start);
      DroppedIffRefused(cfg, start, front, d, op);
      SafeRunKeepsInv(cfg, start, front);
      StepDrops(cfg, Run(cfg, start, front), events[n], d, op);
      RefusedSnoc(cfg, start, events, d, op);
    }
  }

  lemma RefusedSnoc(cfg: Config, start: System, events: seq<Event>, d: PeerId, op: Operation)
    requires events != []
    ensures var front, n := events[..|events| - 1], |events| - 1;
            Refused(cfg, start, events, d, op)
            <==> Refused(cfg, start, front, d, op) || (events[n] == HandOff(d) && Refuses(Run(cfg, start, front), events[n], op))
  {
    var front, n := events[..|events| - 1], |events| - 1;
    assert forall i :: 0 <= i < n ==> front[..i] == events[..i] && front[i] == events[i];
    if Refused(cfg, start, front, d, op) {
      var i :| 0 <= i < |front| && front[i] == HandOff(d) && Refuses(Run(cfg, start, front[..i]), front[i], op);
      assert Refuses(Run(cfg, start, events[..i]), events[i], op);
    }
    if Refused(cfg, start, events, d, op) {
      var i :| 0 <= i < |events| && events[i] == HandOff(d) && Refuses(Run(cfg, start, events[..i]), events[i], op);
      if i < n { assert Refuses(Run(cfg, start, front[..i]), front[i], op); }
    }
  }

  // Delivered, or waiting only for the session to run, or refused by a session that was
  // closed or lacked the source at that moment.
  ghost predicate TakenOver(cfg: Config, start: System, events: seq<Event>, op: Operation) {
    var end := Run(cfg, start, events);
    var d := op.destination;
    d in end.peers && (op in end.peers[d].delivered || op in end.peers[d].handoff || Refused(cfg, start, events, d, op))
  }

  // The destination accepted the operation as new; and it took the operation over if and
  // only if it could answer an arrival that it accepted as new.
  ghost predicate AcceptedExactly(cfg: Config, start: System, events: seq<Event>, op: Operation) {
    var d := op.destination;
    && (WasHandedOver(cfg, start, events, d, op) || WasSwallowed(cfg, start, events, d, op))
    && (TakenOver(cfg, start, events, op) <==> WasHandedOver(cfg, start, events, d, op))
  }

  lemma CommittedExactly(cfg: Config, start: System, events: seq<Event>, op: Operation)
    requires Initial(start) && SafeRun(cfg, start, events) && Committed(Run(cfg, start, events), op)
    ensures AcceptedExactly(cfg, start, events, op)
  {
    SamePeers(cfg, start, events);
    DroppedIffRefused(cfg, start, events, op.destination, op);
    TakenOverIff(cfg, start, events, op.destination, op);
  }

  // A handle is REMOTE_ACKNOWLEDGED only if the destination accepted exactly the operation
  // that the source originated under that identifier. The destination has delivered it,
  // has it queued or had it refused by its session if and only if it could answer an
  // arrival that it accepted as new; otherwise it has nothing but an entry in the cache.
  lemma RemoteAcknowledgedMeansAccepted(cfg: Config, start: System, events: seq<Event>, p: PeerId, id: GroupMessageId)
    requires Initial(start) && SafeRun(cfg, start, events)
    requires ReportsDelivery(Run(cfg, start, events), p, id)
    ensures var end := Run(cfg, start, events);
            MessageKey(p, id) in end.issued && AcceptedExactly(cfg, start, events, end.issued[MessageKey(p, id)])
  {
    AcknowledgedIsCommitted(cfg, start, events, p, id);
    CommittedExactly(cfg, start, events, Run(cfg, start, events).issued[MessageKey(p, id)]);
  }

  // The program as shipped never answers stale traffic, so it needs no side condition.
  lemma SoundWithoutStaleAnswers(cfg: Config, start: System, events: seq<Event>, p: PeerId, id: GroupMessageId)
    requires Initial(start) && forall i :: 0 <= i < |events| ==> !events[i].ReceiveStale?
    requires ReportsDelivery(Run(cfg, start, events), p, id)
    ensures var end := Run(cfg, start, events);
            MessageKey(p, id) in end.issued && AcceptedExactly(cfg, start, events, end.issued[MessageKey(p, id)])
  {
    forall i | 0 <= i < |events| ensures SafeEvent(Run(cfg, start, events[..i]), events[i]) {
      assert !events[i].ReceiveStale?;
    }
    RemoteAcknowledgedMeansAccepted(cfg, start, events, p, id);
  }

  // From the send call to the acknowledged handle: what the destination accepted has
  // exactly the bytes, mode and priority that were passed to the call.
  lemma AcknowledgedPayload(cfg: Config, start: System, past: seq<Event>, e: Event, later: seq<Event>)
    requires Initial(start) && SafeRun(cfg, start, past + [e] + later)
    requires e.Originate? && Step(cfg, Run(cfg, start, past), e) != Run(cfg, start, past)
    requires e.source in Run(cfg, start, past).peers
    requires ReportsDelivery(Run(cfg, start, past + [e] + later), e.source, Run(cfg, start, past).peers[e.source].nextId)
    ensures var id := Run(cfg, start, past).peers[e.source].nextId;
            AcceptedExactly(cfg, start, past + [e] + later, Operation(e.source, e.destination, id, e.mode, e.priority, e.bytes))
  {
    RemoteAcknowledgedMeansAccepted(cfg, start, past + [e] + later, e.source, Run(cfg, start, past).peers[e.source].nextId);
    IssuedByCall(cfg, start, past, e, later);
  }

  lemma IssuedByCall(cfg: Config, start: System, past: seq<Event>, e: Event, later: seq<Event>)
    requires Initial(start) && SafeRun(cfg, start, past + [e] + later)
    requires e.Originate? && Step(cfg, Run(cfg, start, past), e) != Run(cfg, start, past)
    requires e.source in Run(cfg, start, past).peers
    ensures var op := Operation(e.source, e.destination, Run(cfg, start, past).peers[e.source].nextId, e.mode, e.priority, e.bytes);
            var end := Run(cfg, start, past + [e] + later);
            op.Key() in end.issued && end.issued[op.Key()] == op
  {
    OriginatedContent(cfg, Run(cfg, start, past), e);
    RunSnoc(cfg, start, past, e);
    IssuedLater(cfg, start, past + [e], later, MessageKey(e.source, Run(cfg, start, past).peers[e.source].nextId));
  }

  lemma SafeFirst(cfg: Config, start: System, first: seq<Event>, later: seq<Event>)
    requires SafeRun(cfg, start, first + later)
    ensures SafeRun(cfg, start, first)
  {
    var events := first + later;
    forall i | 0 <= i < |first| ensures SafeEvent(Run(cfg, start, first[..i]), first[i]) {
      assert events[..i] == first[..i] && SafeEvent(Run(cfg, start, events[..i]), events[i]);
    }
  }

  lemma SafeLater(cfg: Config, start: System, first: seq<Event>, later: seq<Event>)
    requires SafeRun(cfg, start, first + later)
    ensures SafeRun(cfg, Run(cfg, start, first), later)
  {
    forall i | 0 <= i < |later| ensures SafeEvent(Run(cfg, Run(cfg, start, first), later[..i]), later[i]) {
      var n := |first| + i;
      assert SafeEvent(Run(cfg, start, (first + later)[..n]), (first + later)[n]);
      RunReaches(cfg, start, first, later, i);
    }
  }

  lemma RunReaches(cfg: Config, start: System, first: seq<Event>, later: seq<Event>, i: nat)
    requires i < |later|
    ensures Run(cfg, start, (first + later)[..|first| + i]) == Run(cfg, Run(cfg, start, first), later[..i])
  {
    assert (first + later)[..|first| + i] == first + later[..i];
    RunConcat(cfg, start, first, later[..i]);
  }

  lemma IssuedLater(cfg: Config, start: System, first: seq<Event>, later: seq<Event>, key: MessageKey)
    requires Initial(start) && SafeRun(cfg, start, first + later) && key in Run(cfg, start, first).issued
    ensures var end := Run(cfg, start, first + later);
            key in end.issued && end.issued[key] == Run(cfg, start, first).issued[key]
  {
    SafeFirst(cfg, start, first, later);
    SafeLater(cfg, start, first, later);
    InitialInv(start);
    SafeRunKeepsInv(cfg, start, first);
    IssuedForever(cfg, Run(cfg, start, first), later, key);
    RunConcat(cfg, start, first, later);
  }

  // An acknowledged operation has been delivered, or waits only for the session to run, if
  // the destination answered at least one of the arrivals that it accepted as new whenever
  // it left one unanswered, and every hand-over met an open session that has the source.
  lemma AcknowledgedMeansDelivered(cfg: Config, start: System, events: seq<Event>, p: PeerId, id: GroupMessageId)
    requires Initial(start) && SafeRun(cfg, start, events)
    requires ReportsDelivery(Run(cfg, start, events), p, id)
    ensures var end := Run(cfg, start, events);
            && MessageKey(p, id) in end.issued
            && (var op := end.issued[MessageKey(p, id)];
                var d := op.destination;
                && (WasSwallowed(cfg, start, events, d, op) ==> WasHandedOver(cfg, start, events, d, op))
                && (forall i :: 0 <= i < |events| && events[i] == HandOff(d) ==> Stands(Run(cfg, start, events[..i]), p, d)) ==>
                     d in end.peers && (op in end.peers[d].delivered || op in end.peers[d].handoff))
  {
    RemoteAcknowledgedMeansAccepted(cfg, start, events, p, id);
    InitialInv(start);
    SafeRunKeepsInv(cfg, start, events);
    var op := Run(cfg, start, events).issued[MessageKey(p, id)];
    var d := op.destination;
    assert op.Key() == MessageKey(p, id);
    if Refused(cfg, start, events, d, op) {
      var i :| 0 <= i < |events| && events[i] == HandOff(d) && Refuses(Run(cfg, start, events[..i]), events[i], op);
      assert !Stands(Run(cfg, start, events[..i]), p, d);
    }
  }

  // The session of `d` is open and has `s` as a member.
  predicate Stands(sys: System, s: PeerId, d: PeerId) {
    d in sys.peers && sys.peers[d].open && s in sys.peers[d].members
  }

  lemma {:induction false} SamePeers(cfg: Config, start: System, events: seq<Event>)
    ensures Run(cfg, start, events).peers.Keys == start.peers.Keys
  {
    if events != [] {
      SamePeers(cfg, start, events[..|events| - 1]);
      StepSamePeers(cfg, Run(cfg, start, events[..|events| - 1]), events[|events| - 1]);
    }
  }

  lemma StepSamePeers(cfg: Config, sys: System, e: Event)
    ensures Step(cfg, sys, e).peers.Keys == sys.peers.Keys
  {
    match e
    case Originate(_, _, _, _, _, _, _) => OriginateSamePeers(cfg, sys, e);
    case Receive(p, m, ready, reach) => ReceiveSamePeers(cfg, sys, p, m, ready, reach);
    case Submits(p, k, submitted) => SubmitsSamePeers(sys, p, k, submitted);
    case _ =>
  }

  lemma SubmitsSamePeers(sys: System, p: PeerId, k: nat, submitted: bool)
    ensures SubmitsStep(sys, p, k, submitted).peers.Keys == sys.peers.Keys
  {
  }

  lemma OriginateSamePeers(cfg: Config, sys: System, e: Event)
    requires e.Originate?
    ensures Step(cfg, sys, e).peers.Keys == sys.peers.Keys
  {
  }

  lemma ReceiveSamePeers(cfg: Config, sys: System, p: PeerId, m: Message, ready: bool, reach: Reach)
    ensures ReceiveStep(cfg, sys, p, m, ready, reach).peers.Keys == sys.peers.Keys
  {
    if ReceiveStep(cfg, sys, p, m, ready, reach) != sys && sys.peers[p].coordinator != p {
      DestinationSamePeers(sys, p, m, reach);
    }
  }

  lemma DestinationSamePeers(sys: System, p: PeerId, m: Message, reach: Reach)
    requires p in sys.peers && m.Reliable?
    ensures ReceiveAsDestination(sys, p, m, reach).peers.Keys == sys.peers.Keys
  {
  }
}
