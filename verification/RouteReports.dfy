/**
 What a coordinator says about each routed operation, case by case: whom an admission, a
 final-hop result or a departed destination tells what, and what goes out next.
 */
module RouteReports {
  import opened Types
  import opened RelayTable
  import opened RelayController
  import RR = RelayRuns
  import opened RoutedDelivery
  import Provenance

  // ---------- who is told ----------

  // The oldest relay of the pair among those that remain, if there is one.
  ghost predicate NamesOldest(relays: seq<Relay>, r: Relay, next: Option<Relay>) {
    && (next.None? <==> forall x :: x in relays && x.Between(r.op.source, r.op.destination) ==> x == r)
    && (next.Some? ==>
          exists i :: 0 <= i < |relays| && relays[i] == next.value && next.value != r && next.value.Between(r.op.source, r.op.destination)
                      && forall j :: 0 <= j < i && relays[j].Between(r.op.source, r.op.destination) ==> relays[j] == r)
  }

  lemma {:induction false} HeadIsOldest(relays: seq<Relay>, s: PeerId, d: PeerId)
    ensures Head(relays, s, d).None? <==> forall x :: x in relays ==> !x.Between(s, d)
    ensures Head(relays, s, d).Some? ==>
              exists i :: 0 <= i < |relays| && relays[i] == Head(relays, s, d).value && relays[i].Between(s, d)
                          && forall j :: 0 <= j < i ==> !relays[j].Between(s, d)
  {
    if relays != [] {
      var front, last := relays[..|relays| - 1], relays[|relays| - 1];
      assert relays == front + [last];
      HeadIsOldest(front, s, d);
      PairAppended(front, last, s, d);
      if Head(front, s, d).Some? {
        var i :| 0 <= i < |front| && front[i] == Head(front, s, d).value && front[i].Between(s, d)
            && forall j :: 0 <= j < i ==> !front[j].Between(s, d);
        assert relays[i] == front[i];
      } else {
        OfPairMembers(front, s, d);
        assert OfPair(front, s, d) == [];
      }
    }
  }

  // With the relay gone, the head is the oldest of the rest.
  lemma NextIsOldest(relays: seq<Relay>, r: Relay)
    requires UniqueKeys(relays) && r in relays
    ensures NamesOldest(relays, r, Head(Without(relays, r.Key()), r.op.source, r.op.destination))
    ensures forall x :: x in Without(relays, r.Key()) <==> x in relays && x != r
  {
    var s, d := r.op.source, r.op.destination;
    var k :| 0 <= k < |relays| && relays[k] == r;
    assert relays == relays[..k] + [r] + relays[k + 1..];
    WithoutMiddle(relays[..k], r, relays[k + 1..]);
    var rest := relays[..k] + relays[k + 1..];
    HeadIsOldest(rest, s, d);
    if Head(rest, s, d).Some? {
      var i :| 0 <= i < |rest| && rest[i] == Head(rest, s, d).value && rest[i].Between(s, d) && forall j :: 0 <= j < i ==> !rest[j].Between(s, d);
      OldestOfRest(relays, k, i, s, d);
    }
  }

  lemma OldestOfRest(relays: seq<Relay>, k: nat, i: nat, s: PeerId, d: PeerId)
    requires UniqueKeys(relays) && k < |relays| && i < |relays| - 1
    requires var rest := relays[..k] + relays[k + 1..];
             rest[i].Between(s, d) && forall j :: 0 <= j < i ==> !rest[j].Between(s, d)
    ensures var (rest, at) := (relays[..k] + relays[k + 1..], if i < k then i else i + 1);
            && relays[at] == rest[i] && relays[at] != relays[k]
            && forall j :: 0 <= j < at && relays[j].Between(s, d) ==> relays[j] == relays[k]
  {
    var rest := relays[..k] + relays[k + 1..];
    assert forall j :: 0 <= j < k ==> rest[j] == relays[j];
    assert forall j :: k < j < |relays| ==> rest[j - 1] == relays[j];
  }

  // ---------- admissions ----------

  // The generic ACK of a source hop: only a remote acknowledged source waits for one.
  function AckDue(c: PeerId, op: Operation, hop: nat): Option<nat> {
    if op.source != c && op.mode == ReliableAcked then Some(hop) else None
  }

  // A refused admission tells the source why, with the generic ACK of its hop.
  lemma RefusalIsReported(limits: Limits, relays: seq<Relay>, x: Relay, hop: nat, members: set<PeerId>, ready: bool)
    requires UniqueKeys(relays)
    ensures var (c, op) := (limits.coordinator, x.op);
            var known := exists y :: y in relays && y.op.source == op.source && y.op.id == op.id;
            var fits := Bytes(relays, op.destination) + x.reserved <= limits.maxBytes && Messages(relays, op.destination) < limits.maxMessages;
            var outcome := Admitted(limits, relays, x, hop, members, ready);
            && (op.source !in members || op.destination == op.source ==> outcome.result == Err(ProtocolMismatch))
            && (op.source in members && op.destination != op.source && op.destination !in members ==>
                  Refuses(c, op, hop, DestinationNotInGroup, outcome.result))
            && (Routes(op, members, c) && !ready ==> Refuses(c, op, hop, DestinationUnavailable, outcome.result))
            && (Routes(op, members, c) && ready && !known && !fits ==> Refuses(c, op, hop, RelayQueueFull, outcome.result))
            && (outcome.relays != relays ==> Routes(op, members, c) && ready && !known && fits && outcome.relays == relays + [x])
  {
    AdmissionDecided(relays, limits, x, members, ready);
  }

  predicate Refuses(c: PeerId, op: Operation, hop: nat, status: RelayStatus, r: Result<Actions>) {
    r.Ok? && TellsFailure(c, op, status, r.value) && r.value.sourceHopAck == AckDue(c, op, hop) && r.value.forward.None?
  }

  // An accepted admission: delivered here and reported at once, or retained with nobody
  // told, and forwarded when no older relay of its pair is retained.
  lemma AdmissionIsReported(limits: Limits, relays: seq<Relay>, x: Relay, hop: nat, members: set<PeerId>)
    requires UniqueKeys(relays)
    ensures var (c, op) := (limits.coordinator, x.op);
            var known := exists y :: y in relays && y.op.source == op.source && y.op.id == op.id;
            var fits := Bytes(relays, op.destination) + x.reserved <= limits.maxBytes && Messages(relays, op.destination) < limits.maxMessages;
            var ack := AckDue(c, op, hop);
            && (forall ready :: op.source in members && op.destination != op.source && op.destination in members && op.destination == c ==>
                  Admitted(limits, relays, x, hop, members, ready).result
                  == Ok(if op.mode == ReliableAcked
                        then Actions(sourceHopAck := ack, deliver := Some(op), deliveryAck := Some(Receipt(MessageKey(op.source, op.id), op.destination)))
                        else Actions(deliver := Some(op),
                                     relayStatus := Some(Signal(MessageKey(op.source, op.id), op.destination, SentToDestinationTransport)))))
            && (Routes(op, members, c) && (exists y :: y in relays && y.op == op && y.reserved == x.reserved) ==>
                  Admitted(limits, relays, x, hop, members, true) == Outcome(Ok(Actions(sourceHopAck := ack)), relays))
            && (Routes(op, members, c) && !known && fits ==>
                  var alone := forall y :: y in relays ==> y.op.source != op.source || y.op.destination != op.destination;
                  Admitted(limits, relays, x, hop, members, true)
                  == Outcome(Ok(Actions(sourceHopAck := ack, forward := if alone then Some(x) else None)), relays + [x]))
  {
    forall ready { AdmissionDecided(relays, limits, x, members, ready); }
  }

  // ---------- results of final hops ----------

  // A failed final hop: the relay is released, its source learns exactly that failure, and
  // the oldest of the rest goes out next.
  lemma FailureIsReported(limits: Limits, relays: seq<Relay>, r: Relay, status: RelayStatus)
    requires UniqueKeys(relays) && r in relays && status != SentToDestinationTransport
    ensures var outcome := FinalHopFailure(limits, relays, r.Key(), status);
            && outcome.result.Ok? && outcome.result.value.sourceHopAck.None?
            && TellsFailure(limits.coordinator, r.op, status, outcome.result.value)
            && NamesOldest(relays, r, outcome.result.value.forward)
            && (forall x :: x in outcome.relays <==> x in relays && x != r)
  {
    NextIsOldest(relays, r);
    RR.FindMember(relays, r);
  }

  // A submitted ordered hop is reported as sent, to its source or on the own handle.
  lemma SubmissionIsReported(limits: Limits, relays: seq<Relay>, r: Relay)
    requires UniqueKeys(relays) && r in relays
    ensures var outcome := Submitted(limits, relays, r.Key());
            && (forall x :: x in outcome.relays <==> x in relays && x != r)
            && (r.op.mode == ReliableAcked ==> outcome.result == Err(ProtocolMismatch))
            && (r.op.mode == ReliableOrdered ==>
                  && outcome.result.Ok?
                  && (var a := outcome.result.value;
                      && a.deliver.None? && a.deliveryAck.None? && a.sourceHopAck.None? && NamesOldest(relays, r, a.forward)
                      && (r.op.source != limits.coordinator ==>
                            && a.relayStatus == Some(Signal(MessageKey(r.op.source, r.op.id), r.op.destination, SentToDestinationTransport))
                            && a.localState.None?)
                      && (r.op.source == limits.coordinator ==> a.relayStatus.None? && a.localState == Some(SentToTransport))))
  {
    NextIsOldest(relays, r);
    RR.FindMember(relays, r);
  }

  // An acknowledged hop is answered with a delivery ACK, or completes the own handle.
  lemma AcknowledgementIsReported(limits: Limits, relays: seq<Relay>, r: Relay)
    requires UniqueKeys(relays) && r in relays
    ensures var outcome := Acknowledged(limits, relays, r.Key());
            && (forall x :: x in outcome.relays <==> x in relays && x != r)
            && (r.op.mode == ReliableOrdered ==> outcome.result == Err(ProtocolMismatch))
            && (r.op.mode == ReliableAcked ==>
                  && outcome.result.Ok?
                  && (var a := outcome.result.value;
                      && a.deliver.None? && a.relayStatus.None? && a.sourceHopAck.None? && NamesOldest(relays, r, a.forward)
                      && (r.op.source != limits.coordinator ==>
                            a.deliveryAck == Some(Receipt(MessageKey(r.op.source, r.op.id), r.op.destination)) && a.localState.None?)
                      && (r.op.source == limits.coordinator ==> a.deliveryAck.None? && a.localState == Some(RemoteAcknowledged))))
  {
    NextIsOldest(relays, r);
    RR.FindMember(relays, r);
  }

  // A result for a relay that is no longer retained says nothing and changes nothing; a
  // failure must not claim that the operation was sent.
  lemma UnknownResultsAreSilent(limits: Limits, relays: seq<Relay>, key: MessageKey, status: RelayStatus)
    requires forall r :: r in relays ==> r.op.source != key.source || r.op.id != key.id
    ensures Submitted(limits, relays, key) == Outcome(Ok(Actions()), relays) && Acknowledged(limits, relays, key) == Outcome(Ok(Actions()), relays)
    ensures FinalHopFailure(limits, relays, key, status)
            == Outcome(if status == SentToDestinationTransport then Err(InvalidArgument) else Ok(Actions()), relays)
  {
    if r :| r in relays && Find(relays, key) == Some(r) { assert false; }
  }

  // A destination that is gone: one failure for each of its relays, in their order.
  lemma EveryoneIsTold(c: PeerId, gone: seq<Relay>, status: RelayStatus, i: nat)
    requires i < |gone|
    ensures |Failures(c, gone, status)| == |gone|
    ensures var a := Failures(c, gone, status)[i];
            TellsFailure(c, gone[i].op, status, a) && a.forward.None? && a.sourceHopAck.None?
  {
  }

  // ---------- in the system ----------

  // After the step the source is told: the signal is on its way, or the own handle that was
  // still open has failed.
  predicate Told(sys: System, sys': System, c: PeerId, op: Operation, status: RelayStatus)
    requires c in sys.peers && c in sys'.peers
  {
    && (op.source != c ==> RouteStatus(c, op.source, Signal(MessageKey(op.source, op.id), op.destination, status)) in sys'.net)
    && (op.source == c && op.id in sys.peers[c].handles && !sys.peers[c].handles[op.id].Terminal() ==>
          op.id in sys'.peers[c].handles && sys'.peers[c].handles[op.id] == Failed)
  }

  lemma ApplyTells(sys: System, c: PeerId, op: Operation, status: RelayStatus, outcome: Outcome, reach: Reach)
    requires c in sys.peers && outcome.result.Ok? && outcome.result.value.sourceHopAck.None?
    requires TellsFailure(c, op, status, outcome.result.value)
    ensures var sys' := Apply(sys, c, c, outcome, Some(op.id), reach); c in sys'.peers && Told(sys, sys', c, op, status)
  {
  }

  // A final hop of a retained relay runs out of retries at its coordinator.
  lemma TimeoutIsTold(cfg: Config, sys: System, c: PeerId, h: nat, r: Relay, reach: Reach)
    requires c in sys.peers && sys.peers[c].coordinator == c && UniqueKeys(sys.peers[c].relays) && r in sys.peers[c].relays
    requires h in sys.peers[c].hops && sys.peers[c].hops[h].finalHop && sys.peers[c].hops[h].key == r.Key()
    ensures var sys' := HopTimesOutStep(cfg, sys, c, h, reach);
            c in sys'.peers && r !in sys'.peers[c].relays && Told(sys, sys', c, r.op, DestinationAckTimeout)
  {
    var q := sys.peers[c];
    var rest := With(sys, c, q.(hops := WithoutHop(q.hops, h)), {});
    var outcome := FinalHopFailure(LimitsOf(cfg, c), q.relays, r.Key(), DestinationAckTimeout);
    FailureIsReported(LimitsOf(cfg, c), q.relays, r, DestinationAckTimeout);
    ApplyTells(rest, c, r.op, DestinationAckTimeout, outcome, reach);
    ApplyReleases(rest, c, outcome, Some(r.op.id), reach);
  }

  // The forward of a relay finds no ready destination.
  lemma ForwardFailureIsTold(cfg: Config, sys: System, c: PeerId, r: Relay, reach: Reach)
    requires c in sys.peers && sys.peers[c].coordinator == c && UniqueKeys(sys.peers[c].relays) && r in sys.peers[c].relays
    requires r.hop in sys.peers[c].failing
    ensures var sys' := ForwardFailsStep(cfg, sys, c, r.Key(), reach);
            c in sys'.peers && r !in sys'.peers[c].relays && Told(sys, sys', c, r.op, DestinationUnavailable)
  {
    var outcome := FinalHopFailure(LimitsOf(cfg, c), sys.peers[c].relays, r.Key(), DestinationUnavailable);
    RR.FindMember(sys.peers[c].relays, r);
    FailureIsReported(LimitsOf(cfg, c), sys.peers[c].relays, r, DestinationUnavailable);
    ApplyTells(sys, c, r.op, DestinationUnavailable, outcome, reach);
    ApplyReleases(sys, c, outcome, Some(r.op.id), reach);
  }

  // The event ends the final hop of a retained relay with this failure.
  predicate FinalHopFails(q: Peer, c: PeerId, r: Relay, e: Event, status: RelayStatus) {
    || (e.HopTimesOut? && e.at == c && e.hop in q.hops && q.hops[e.hop].finalHop && q.hops[e.hop].key == MessageKey(r.op.source, r.op.id)
        && status == DestinationAckTimeout)
    || (e.ForwardFails? && e.at == c && e.key == MessageKey(r.op.source, r.op.id) && r.hop in q.failing && status == DestinationUnavailable)
  }

  // In every run: a final hop that fails at its coordinator releases the relay and leaves
  // its source told.
  lemma EveryFailureIsTold(cfg: Config, start: System, events: seq<Event>, c: PeerId, r: Relay, e: Event, status: RelayStatus)
    requires Initial(start)
    requires var sys := Run(cfg, start, events);
             c in sys.peers && sys.peers[c].coordinator == c && r in sys.peers[c].relays && FinalHopFails(sys.peers[c], c, r, e, status)
    ensures var (sys, sys') := (Run(cfg, start, events), Run(cfg, start, events + [e]));
            c in sys'.peers && r !in sys'.peers[c].relays && Told(sys, sys', c, r.op, status)
  {
    var sys := Run(cfg, start, events);
    Provenance.EveryRunGrounded(cfg, start, events);
    assert Provenance.PeerGrounded(sys, c, sys.peers[c]);
    RunSnoc(cfg, start, events, e);
    if e.HopTimesOut? { TimeoutIsTold(cfg, sys, c, e.hop, r, e.reach); } else { ForwardFailureIsTold(cfg, sys, c, r, e.reach); }
  }

  lemma ApplyReleases(sys: System, c: PeerId, outcome: Outcome, local: Option<GroupMessageId>, reach: Reach)
    requires c in sys.peers
    ensures var sys' := Apply(sys, c, c, outcome, local, reach); c in sys'.peers && sys'.peers[c].relays == outcome.relays
  {
  }

  // An arrived source hop at its coordinator, with every submission of the step made: the
  // hop is answered, and what became of the operation is on its way to the source.
  lemma ArrivalIsTold(cfg: Config, sys: System, c: PeerId, m: Message, ready: bool)
    requires c in sys.peers && sys.peers[c].coordinator == c && sys.peers[c].open && UniqueKeys(sys.peers[c].relays)
    requires m in sys.net && m.Reliable? && m.to == c && m.from == m.op.source && m.op.source in sys.peers[c].members
    requires m.op.destination in sys.peers[c].members && m.op.destination != m.op.source && m.op.source != c
    ensures var sys' := ReceiveStep(cfg, sys, c, m, ready, Done);
            var (op, q) := (m.op, sys.peers[c]);
            var (key, d) := (MessageKey(op.source, op.id), op.destination);
            var known := exists y :: y in q.relays && y.op.source == op.source && y.op.id == op.id;
            var same := exists y :: y in q.relays && y.op == op && y.reserved == |op.bytes|;
            var fits := Bytes(q.relays, d) + |op.bytes| <= cfg.maxBytes && Messages(q.relays, d) < cfg.maxMessages;
            && c in sys'.peers && sys.net <= sys'.net
            && (op.mode == ReliableAcked && (d == c || !ready || !known || same) ==> GenericAck(c, op.source, m.hop) in sys'.net)
            && (d == c ==>
                  && sys'.peers[c].handoff == q.handoff + [op]
                  && (op.mode == ReliableAcked ==> DeliveryAck(c, op.source, Receipt(key, d)) in sys'.net)
                  && (op.mode == ReliableOrdered ==> RouteStatus(c, op.source, Signal(key, d, SentToDestinationTransport)) in sys'.net))
            && (d != c && !ready ==> RouteStatus(c, op.source, Signal(key, d, DestinationUnavailable)) in sys'.net)
            && (d != c && ready && !known && !fits ==> RouteStatus(c, op.source, Signal(key, d, RelayQueueFull)) in sys'.net)
            && (d != c && ready && !known && fits ==>
                  && sys'.peers[c].relays == q.relays + [Relay(op, sys.nextHop, |op.bytes|)]
                  && ((forall y :: y in q.relays ==> y.op.source != op.source || y.op.destination != d) ==>
                        && Reliable(c, d, sys.nextHop, op) in sys'.net
                        && (op.mode == ReliableAcked ==> sys'.peers[c].hops == q.hops[sys.nextHop := Hop(key, d, true)])))
  {
    var q, x := sys.peers[c], Relay(m.op, sys.nextHop, |m.op.bytes|);
    RefusalIsReported(LimitsOf(cfg, c), q.relays, x, m.hop, q.members, ready);
    AdmissionIsReported(LimitsOf(cfg, c), q.relays, x, m.hop, q.members);
  }

  // The generic ACK of a final hop: the source gets its delivery ACK, or the own handle is
  // acknowledged, and the relay is released.
  lemma AcknowledgementIsTold(cfg: Config, sys: System, c: PeerId, m: Message, r: Relay, reach: Reach)
    requires c in sys.peers && sys.peers[c].coordinator == c && UniqueKeys(sys.peers[c].relays) && r in sys.peers[c].relays
    requires r.op.mode == ReliableAcked && m in sys.net && m.GenericAck? && m.to == c
    requires m.hop in sys.peers[c].hops && sys.peers[c].hops[m.hop] == Hop(r.Key(), m.from, true)
    ensures var sys' := AckArrivesStep(cfg, sys, c, m, reach);
            var (op, handles) := (r.op, sys.peers[c].handles);
            && c in sys'.peers && r !in sys'.peers[c].relays
            && ((forall x :: x in sys.peers[c].relays && x != r ==> x.hop != m.hop) ==> m.hop !in sys'.peers[c].hops)
            && (op.source != c ==> DeliveryAck(c, op.source, Receipt(MessageKey(op.source, op.id), op.destination)) in sys'.net)
            && (op.source == c && op.id in handles && !handles[op.id].Terminal() ==>
                  op.id in sys'.peers[c].handles && sys'.peers[c].handles[op.id] == RemoteAcknowledged)
  {
    AcknowledgementIsReported(LimitsOf(cfg, c), sys.peers[c].relays, r);
  }

  // An ordered final hop whose submission completed: a remote source is told it was sent.
  lemma SubmissionIsTold(cfg: Config, sys: System, c: PeerId, r: Relay, reach: Reach)
    requires c in sys.peers && sys.peers[c].coordinator == c && UniqueKeys(sys.peers[c].relays) && r in sys.peers[c].relays
    requires r.op.mode == ReliableOrdered && FinalHop(c, r) in sys.net
    ensures var sys' := OrderedHopSubmittedStep(cfg, sys, c, r.Key(), reach);
            var op := r.op;
            && c in sys'.peers && r !in sys'.peers[c].relays
            && (op.source != c ==>
                  RouteStatus(c, op.source, Signal(MessageKey(op.source, op.id), op.destination, SentToDestinationTransport)) in sys'.net)
  {
    RR.FindMember(sys.peers[c].relays, r);
    SubmissionIsReported(LimitsOf(cfg, c), sys.peers[c].relays, r);
  }

  lemma {:induction false} ScopeMeaning(relays: seq<Relay>, d: PeerId)
    ensures forall r :: r in Inside(relays, OnlyTo(d)) <==> r in relays && r.op.destination == d
    ensures forall r :: r in Outside(relays, OnlyTo(d)) <==> r in relays && r.op.destination != d
    ensures forall s, e :: e != d ==> OfPair(Outside(relays, OnlyTo(d)), s, e) == OfPair(relays, s, e)
  {
    if relays != [] {
      var front, last := relays[..|relays| - 1], relays[|relays| - 1];
      assert relays == front + [last];
      ScopeMeaning(front, d);
      forall s, e | e != d ensures OfPair(Outside(relays, OnlyTo(d)), s, e) == OfPair(relays, s, e) {
        PairAppended(Outside(front, OnlyTo(d)), last, s, e);
      }
    }
  }

  // After a RESUME the oldest relay of a pair goes out again under its MessageId when it is
  // ordered; no other relay does.
  lemma OrderedHeadIsResent(sys: System, c: PeerId, i: nat)
    requires c in sys.peers && sys.peers[c].coordinator == c && UniqueKeys(sys.peers[c].relays) && i < |sys.peers[c].relays|
    ensures var r := sys.peers[c].relays[i];
            var oldest := forall j :: 0 <= j < i ==> !sys.peers[c].relays[j].Between(r.op.source, r.op.destination);
            && (oldest && r.op.mode == ReliableOrdered ==>
                  ResumesStep(sys, c, r.Key()) == sys.(net := sys.net + {Reliable(c, r.op.destination, r.hop, r.op)}))
            && (!oldest || r.op.mode == ReliableAcked ==> ResumesStep(sys, c, r.Key()) == sys)
  {
    var relays, r := sys.peers[c].relays, sys.peers[c].relays[i];
    RR.FindMember(relays, r);
    HeadIsOldest(relays, r.op.source, r.op.destination);
    assert r in relays && r.Between(r.op.source, r.op.destination);
    assert sys.peers[c := sys.peers[c]] == sys.peers;
  }

  // A destination that left or cannot resume: every relay to it is released, every other
  // stays in its order, and every remote source is told.
  lemma DepartureIsTold(sys: System, c: PeerId, d: PeerId, status: RelayStatus)
    requires c in sys.peers && sys.peers[c].coordinator == c
    ensures var sys' := DestinationGoneStep(sys, c, d, status);
            var (was, now) := (sys.peers[c].relays, if c in sys'.peers then sys'.peers[c].relays else []);
            && c in sys'.peers
            && (forall r :: r in now <==> r in was && r.op.destination != d)
            && (forall s, e :: e != d ==> OfPair(now, s, e) == OfPair(was, s, e))
            && (forall r :: r in was && r.op.destination == d && r.op.source != c ==>
                  RouteStatus(c, r.op.source, Signal(MessageKey(r.op.source, r.op.id), d, status)) in sys'.net)
  {
    ScopeMeaning(sys.peers[c].relays, d);
  }
}
