/**
 When a cancelled operation is newly sent by its source at all: a submission loop reaches
 it, or the source coordinates and its relay queues unsent behind a head that moves.
 */
module QueuedSends {
  import opened Types
  import opened RelayTable
  import opened RelayController
  import MR = MemberRouter
  import RR = RelayRuns
  import opened Dedup
  import opened RoutedDelivery
  import opened AckSoundness
  import opened HandleLaws
  import opened Provenance
  import opened StuckHeads
  import opened Cancellation
  import ST = StaleTraffic

  // ---------- a coordinator's own send in the relay table ----------

  // The source newly sends a hop of the operation.
  ghost predicate NewIn(sys: System, end: System, p: PeerId, op: Operation) {
    exists m :: m in end.net && m !in sys.net && m.Reliable? && m.from == p && m.op == op
  }

  // A retained relay that has not been sent: it is a head that a RESUME sends, or it queues
  // behind a head that moves.
  ghost predicate WillGo(q: Peer, r: Relay) {
    var head := Head(q.relays, r.op.source, r.op.destination);
    head.Some? && (if head.value == r then r.op.mode == ReliableOrdered else Moves(q, head.value))
  }

  ghost predicate Queued(sys: System, p: PeerId, op: Operation) {
    p in sys.peers && exists r :: r in sys.peers[p].relays && r.op == op && FinalHop(p, r) !in sys.net && WillGo(sys.peers[p], r)
  }

  // ---------- a queued relay goes out ----------

  lemma RelayHasHead(relays: seq<Relay>, r: Relay)
    requires r in relays
    ensures Head(relays, r.op.source, r.op.destination).Some?
    ensures var h := Head(relays, r.op.source, r.op.destination).value; h in relays && IsHead(relays, h) && h.Between(r.op.source, r.op.destination)
  {
    OfPairMembers(relays, r.op.source, r.op.destination);
    HeadMember(relays, r.op.source, r.op.destination);
  }

  lemma {:induction false} QueuedGoes(cfg: Config, sys: System, p: PeerId, r: Relay) returns (later: seq<Event>)
    requires Grounded(sys) && p in sys.peers && r in sys.peers[p].relays && WillGo(sys.peers[p], r)
    ensures FinalHop(p, r) in Run(cfg, sys, later).net
    decreases |sys.peers[p].relays|
  {
    var q := sys.peers[p];
    RelayHasHead(q.relays, r);
    var h := Head(q.relays, r.op.source, r.op.destination).value;
    if h == r {
      later := [Resumes(p, r.Key())];
      HeadFound(sys, p, r);
      HeadResumes(cfg, sys, p, r);
    } else {
      HeadFound(sys, p, h);
      var first := HeadReleased(cfg, sys, p, h);
      var next := Run(cfg, sys, first);
      RunStaysGrounded(cfg, sys, first);
      BehindMoves(sys, next, p, h, r);
      if FinalHop(p, r) in next.net {
        later := first;
      } else {
        var rest := QueuedGoes(cfg, next, p, r);
        later := first + rest;
        RunConcat(cfg, sys, first, rest);
      }
    }
  }

  lemma HeadResumes(cfg: Config, sys: System, p: PeerId, r: Relay)
    requires p in sys.peers && sys.peers[p].coordinator == p && Find(sys.peers[p].relays, r.Key()) == Some(r)
    requires IsHead(sys.peers[p].relays, r) && r.op.mode == ReliableOrdered
    ensures FinalHop(p, r) in Run(cfg, sys, [Resumes(p, r.Key())]).net
  {
    RunOne(cfg, sys, Resumes(p, r.Key()));
  }

  // The head is gone: the relay is next and sent, or queues behind the new head.
  lemma BehindMoves(sys: System, next: System, p: PeerId, h: Relay, r: Relay)
    requires Grounded(sys) && p in sys.peers && r in sys.peers[p].relays && h in sys.peers[p].relays && h != r
    requires h.Between(r.op.source, r.op.destination) && Promoted(next, p, sys.peers[p].relays, h)
    ensures p in next.peers && |next.peers[p].relays| < |sys.peers[p].relays| && r in next.peers[p].relays
    ensures FinalHop(p, r) in next.net || WillGo(next.peers[p], r)
  {
    var relays := sys.peers[p].relays;
    assert PeerGrounded(sys, p, sys.peers[p]);
    assert r.Key() != h.Key() by { if r.Key() == h.Key() { SameKeySame(relays, r, h); } }
    WithoutMembers(relays, h.Key());
    WithoutShorter(relays, h);
    RelayHasHead(Without(relays, h.Key()), r);
  }

  lemma {:induction false} WithoutShorter(relays: seq<Relay>, gone: Relay)
    requires gone in relays
    ensures |Without(relays, gone.Key())| < |relays|
  {
    var front, last := relays[..|relays| - 1], relays[|relays| - 1];
    assert relays == front + [last];
    if last.Key() == gone.Key() { WithoutNoLonger(front, gone.Key()); } else { WithoutShorter(front, gone); }
  }

  lemma {:induction false} WithoutNoLonger(relays: seq<Relay>, key: MessageKey)
    ensures |Without(relays, key)| <= |relays|
  {
    if relays != [] { WithoutNoLonger(relays[..|relays| - 1], key); }
  }

  // ---------- nothing else goes out ----------

  // What a peer newly sends comes from a submission loop or from a relay that it retains.
  lemma NewMessage(cfg: Config, sys: System, e: Event, p: PeerId, m: Message)
    requires Grounded(sys) && p in sys.peers && Where(e) == p && p in Step(cfg, sys, e).peers
    requires m in Step(cfg, sys, e).net && m !in sys.net && m.Reliable?
    ensures (e.Submits? && InProgress(sys.peers[p], m.op)) || exists r :: r in Step(cfg, sys, e).peers[p].relays && m == FinalHop(p, r)
  {
    if e.Originate? {
      OriginatedMessage(cfg, sys, e, m);
    } else if e.Receive? {
      ReceivedMessage(cfg, sys, p, e.message, e.ready, e.reach, m);
    } else if e.AckArrives? {
      AckedMessage(cfg, sys, p, e.message, e.reach, m);
    } else if e.HopTimesOut? {
      TimedOutMessage(cfg, sys, p, e.hop, e.reach, m);
    } else if e.OrderedHopSubmitted? || e.ForwardFails? {
      ForwardResultMessage(cfg, sys, e, p, m);
    } else {
      PlainMessage(cfg, sys, e, p, m);
    }
  }

  lemma ForwardResultMessage(cfg: Config, sys: System, e: Event, p: PeerId, m: Message)
    requires p in sys.peers && Where(e) == p && p in Step(cfg, sys, e).peers && (e.OrderedHopSubmitted? || e.ForwardFails?)
    requires m in Step(cfg, sys, e).net && m !in sys.net && m.Reliable?
    ensures exists r :: r in Step(cfg, sys, e).peers[p].relays && m == FinalHop(p, r)
  {
    match e
    case OrderedHopSubmitted(_, key, reach) => ResultMessage(cfg, sys, p, key, Submitted(LimitsOf(cfg, p), sys.peers[p].relays, key), None, reach, m);
    case ForwardFails(_, key, reach) =>
      ResultMessage(cfg, sys, p, key, FinalHopFailure(LimitsOf(cfg, p), sys.peers[p].relays, key, DestinationUnavailable), Some(key.id), reach, m);
  }

  lemma ResultMessage(cfg: Config, sys: System, p: PeerId, key: MessageKey, outcome: Outcome, local: Option<GroupMessageId>, reach: Reach, m: Message)
    requires p in sys.peers && ResultFor(cfg, p, sys.peers[p].relays, key, outcome)
    requires m in Apply(sys, p, p, outcome, local, reach).net && m !in sys.net && m.Reliable?
    ensures p in Apply(sys, p, p, outcome, local, reach).peers
    ensures exists r :: r in Apply(sys, p, p, outcome, local, reach).peers[p].relays && m == FinalHop(p, r)
  {
    ApplySends(sys, p, p, outcome, local, reach, m);
    ApplyRelays(sys, p, p, outcome, local, reach);
    ResultForwardsHead(cfg, p, sys.peers[p].relays, key, outcome);
  }

  lemma AdmittedMessage(cfg: Config, sys: System, c: PeerId, from: PeerId, op: Operation, sourceHop: nat, ready: bool,
                        local: Option<GroupMessageId>, reach: Reach, m: Message)
    requires c in sys.peers
    requires var sys' := Apply(Bind(sys, op, true), c, from, AdmittedOutcome(cfg, sys, c, op, sourceHop, ready), local, reach);
             m in sys'.net && m !in sys.net && m.Reliable?
    ensures var sys' := Apply(Bind(sys, op, true), c, from, AdmittedOutcome(cfg, sys, c, op, sourceHop, ready), local, reach);
            c in sys'.peers && exists r :: r in sys'.peers[c].relays && m == FinalHop(c, r)
  {
    var outcome := AdmittedOutcome(cfg, sys, c, op, sourceHop, ready);
    ApplySends(Bind(sys, op, true), c, from, outcome, local, reach, m);
    ApplyRelays(Bind(sys, op, true), c, from, outcome, local, reach);
    AdmissionIs(cfg, sys, c, op, sourceHop, ready);
  }

  lemma OwnAdmittedMessage(cfg: Config, sys: System, c: PeerId, op: Operation, ready: bool, reach: Reach, m: Message)
    requires c in sys.peers
    requires var sys' := OriginateAsCoordinator(cfg, sys, c, op, ready, reach); m in sys'.net && m !in sys.net && m.Reliable?
    ensures var sys' := OriginateAsCoordinator(cfg, sys, c, op, ready, reach);
            c in sys'.peers && exists r :: r in sys'.peers[c].relays && m == FinalHop(c, r)
  {
    AdmittedMessage(cfg, sys, c, c, op, 0, ready, Some(op.id), reach, m);
  }

  lemma OriginatedMessage(cfg: Config, sys: System, e: Event, m: Message)
    requires e.Originate? && e.source in sys.peers && e.source in Step(cfg, sys, e).peers
    requires m in Step(cfg, sys, e).net && m !in sys.net && m.Reliable?
    ensures exists r :: r in Step(cfg, sys, e).peers[e.source].relays && m == FinalHop(e.source, r)
  {
    var p := e.source;
    var op := Operation(p, e.destination, sys.peers[p].nextId, e.mode, e.priority, e.bytes);
    if sys.peers[p].coordinator == p {
      OwnAdmittedMessage(cfg, Named(sys, p, op), p, op, e.ready, e.reach, m);
    } else {
      MemberOrigin(cfg, Named(sys, p, op), p, op, e.ready);
    }
  }

  lemma ReceivedMessage(cfg: Config, sys: System, p: PeerId, x: Message, ready: bool, reach: Reach, m: Message)
    requires p in sys.peers && p in ReceiveStep(cfg, sys, p, x, ready, reach).peers
    requires m in ReceiveStep(cfg, sys, p, x, ready, reach).net && m !in sys.net && m.Reliable?
    ensures exists r :: r in ReceiveStep(cfg, sys, p, x, ready, reach).peers[p].relays && m == FinalHop(p, r)
  {
    if sys.peers[p].coordinator == p { AdmittedMessage(cfg, sys, p, x.from, x.op, x.hop, ready, None, reach, m); }
  }

  lemma AckedMessage(cfg: Config, sys: System, p: PeerId, x: Message, reach: Reach, m: Message)
    requires p in sys.peers && p in AckArrivesStep(cfg, sys, p, x, reach).peers
    requires m in AckArrivesStep(cfg, sys, p, x, reach).net && m !in sys.net && m.Reliable?
    ensures exists r :: r in AckArrivesStep(cfg, sys, p, x, reach).peers[p].relays && m == FinalHop(p, r)
  {
    var q := sys.peers[p];
    var key := q.hops[x.hop].key;
    ResultMessage(cfg, With(sys, p, q.(hops := WithoutHop(q.hops, x.hop)), {}), p, key, Acknowledged(LimitsOf(cfg, p), q.relays, key),
                  Some(key.id), reach, m);
  }

  lemma TimedOutMessage(cfg: Config, sys: System, p: PeerId, hop: nat, reach: Reach, m: Message)
    requires p in sys.peers && p in HopTimesOutStep(cfg, sys, p, hop, reach).peers
    requires m in HopTimesOutStep(cfg, sys, p, hop, reach).net && m !in sys.net && m.Reliable?
    ensures exists r :: r in HopTimesOutStep(cfg, sys, p, hop, reach).peers[p].relays && m == FinalHop(p, r)
  {
    var q := sys.peers[p];
    var key := q.hops[hop].key;
    ResultMessage(cfg, With(sys, p, q.(hops := WithoutHop(q.hops, hop)), {}), p, key,
                  FinalHopFailure(LimitsOf(cfg, p), q.relays, key, DestinationAckTimeout), Some(key.id), reach, m);
  }

  lemma PlainMessage(cfg: Config, sys: System, e: Event, p: PeerId, m: Message)
    requires p in sys.peers && Where(e) == p && p in Step(cfg, sys, e).peers
    requires Quiet(e) || e.HandOff? || e.SignalArrives? || e.CancelSend? || e.Submits?
    requires m in Step(cfg, sys, e).net && m !in sys.net && m.Reliable?
    ensures (e.Submits? && InProgress(sys.peers[p], m.op)) || exists r :: r in Step(cfg, sys, e).peers[p].relays && m == FinalHop(p, r)
  {
    if e.Submits? { SubmittedMessage(sys, p, e.pass, e.submitted, m); } else { ResumedMessage(cfg, sys, e, p, m); }
  }

  lemma SubmittedMessage(sys: System, p: PeerId, k: nat, submitted: bool, m: Message)
    requires p in sys.peers && m in SubmitsStep(sys, p, k, submitted).net && m !in sys.net && m.Reliable?
    ensures InProgress(sys.peers[p], m.op)
  {
    assert m.op in sys.peers[p].passes[k].rest;
  }

  lemma ResumedMessage(cfg: Config, sys: System, e: Event, p: PeerId, m: Message)
    requires p in sys.peers && Where(e) == p && p in Step(cfg, sys, e).peers
    requires Quiet(e) || e.HandOff? || e.SignalArrives? || e.CancelSend?
    requires m in Step(cfg, sys, e).net && m !in sys.net && m.Reliable?
    ensures exists r :: r in Step(cfg, sys, e).peers[p].relays && m == FinalHop(p, r)
  {
    assert e.Resumes? && m == FinalHop(p, Find(sys.peers[p].relays, e.key).value);
  }

  // A used identifier that is not live, in no submission loop.
  ghost predicate Unlisted(q: Peer, op: Operation) {
    op.id < q.nextId && op.id !in q.sends.live && !InProgress(q, op)
  }

  lemma StepKeepsUnlisted(cfg: Config, sys: System, e: Event, p: PeerId, op: Operation)
    requires AllIdsUsed(sys) && p in sys.peers && Unlisted(sys.peers[p], op)
    ensures p in Step(cfg, sys, e).peers && Unlisted(Step(cfg, sys, e).peers[p], op)
  {
    StepKeepsOut(cfg, sys, e, p, op);
    Elsewhere(cfg, sys, e, p);
    assert [e][..0] == [];
    RunOne(cfg, sys, e);
    NeverLiveAgain(cfg, sys, [e], p, op.id);
  }

  // Every relay of the operation that its source retains has been sent.
  ghost predicate Spent(sys: System, p: PeerId, op: Operation) {
    && p in sys.peers && op.source == p && Unlisted(sys.peers[p], op)
    && forall r :: r in sys.peers[p].relays && r.op == op ==> FinalHop(p, r) in sys.net
  }

  lemma SpentSendsNothing(cfg: Config, sys: System, e: Event, p: PeerId, op: Operation)
    requires Grounded(sys) && AllIdsUsed(sys) && Spent(sys, p, op)
    ensures Spent(Step(cfg, sys, e), p, op) && !NewIn(sys, Step(cfg, sys, e), p, op)
  {
    StepKeepsUnlisted(cfg, sys, e, p, op);
    NetGrows(cfg, sys, e);
    var sys' := Step(cfg, sys, e);
    forall r | r in sys'.peers[p].relays && r.op == op ensures FinalHop(p, r) in sys.net { OldRelay(cfg, sys, e, p, op, r); }
    forall m | m in sys'.net && m !in sys.net && m.Reliable? && m.from == p ensures m.op != op { NotOf(cfg, sys, e, p, op, m); }
  }

  // A relay of an operation from before is a relay from before.
  lemma OldRelay(cfg: Config, sys: System, e: Event, p: PeerId, op: Operation, r: Relay)
    requires Grounded(sys) && AllIdsUsed(sys) && p in sys.peers && op.source == p && op.id < sys.peers[p].nextId
    requires p in Step(cfg, sys, e).peers && r in Step(cfg, sys, e).peers[p].relays && r.op == op
    ensures r in sys.peers[p].relays
  {
    Elsewhere(cfg, sys, e, p);
    if r !in sys.peers[p].relays { NewRelay(cfg, sys, e, p, r); }
  }

  lemma NotOf(cfg: Config, sys: System, e: Event, p: PeerId, op: Operation, m: Message)
    requires Grounded(sys) && AllIdsUsed(sys) && p in sys.peers && op.source == p && Unlisted(sys.peers[p], op)
    requires p in Step(cfg, sys, e).peers
    requires forall r :: r in sys.peers[p].relays && r.op == op ==> FinalHop(p, r) !in Step(cfg, sys, e).net || FinalHop(p, r) in sys.net
    requires m in Step(cfg, sys, e).net && m !in sys.net && m.Reliable? && m.from == p
    ensures m.op != op
  {
    SentBySelf(cfg, sys, e, m);
    NewMessage(cfg, sys, e, p, m);
    if m.op == op {
      var r :| r in Step(cfg, sys, e).peers[p].relays && m == FinalHop(p, r);
      OldRelay(cfg, sys, e, p, op, r);
    }
  }

  lemma NetGrows(cfg: Config, sys: System, e: Event)
    ensures sys.net <= Step(cfg, sys, e).net
  {
  }

  // The relay of the operation is held back by an idle head of its pair: by itself, unsent,
  // or by one that is not about to fail.
  ghost predicate HeldBack(sys: System, p: PeerId, op: Operation, h: Relay) {
    && p in sys.peers && op.source == p && Unlisted(sys.peers[p], op) && IdleHead(sys, p, h) && h.Between(p, op.destination)
    && (h.op == op || h.hop !in sys.peers[p].failing)
  }

  lemma HeldBackStaysOrSpent(cfg: Config, sys: System, e: Event, p: PeerId, op: Operation, h: Relay)
    requires Grounded(sys) && AllIdsUsed(sys) && HeldBack(sys, p, op, h)
    ensures var sys' := Step(cfg, sys, e);
            (HeldBack(sys', p, op, h) || Spent(sys', p, op)) && !NewIn(sys, sys', p, op)
  {
    StepKeepsUnlisted(cfg, sys, e, p, op);
    if Step(cfg, sys, e) == sys {
      SamePeerSame(sys, p, op, h);
    } else if Ends(e, p, op.destination) {
      EndedIsSpent(cfg, sys, e, p, op);
    } else if FailsHead(e, p, h) {
      FailedIsSpent(cfg, sys, e, p, op, h);
    } else {
      StepStaysIdle(cfg, sys, e, p, h);
      IdleSendsNothing(cfg, sys, e, p, op, h);
    }
  }

  lemma IdleSendsNothing(cfg: Config, sys: System, e: Event, p: PeerId, op: Operation, h: Relay)
    requires Grounded(sys) && AllIdsUsed(sys) && HeldBack(sys, p, op, h) && StaysQuiet(sys, Step(cfg, sys, e), p, h)
    ensures !NewIn(sys, Step(cfg, sys, e), p, op)
  {
    var sys' := Step(cfg, sys, e);
    assert PeerGrounded(sys, p, sys.peers[p]);
    forall m | m in sys'.net && m !in sys.net && m.Reliable? && m.from == p ensures m.op != op { NotOf(cfg, sys, e, p, op, m); }
  }

  lemma NoRelayIsSpent(cfg: Config, sys: System, e: Event, p: PeerId, op: Operation)
    requires Grounded(sys) && AllIdsUsed(sys) && p in sys.peers && op.source == p && Unlisted(sys.peers[p], op)
    requires p in Step(cfg, sys, e).peers && Unlisted(Step(cfg, sys, e).peers[p], op)
    requires forall r :: r in Step(cfg, sys, e).peers[p].relays ==> r.op != op
    ensures Spent(Step(cfg, sys, e), p, op) && !NewIn(sys, Step(cfg, sys, e), p, op)
  {
    var sys' := Step(cfg, sys, e);
    forall m | m in sys'.net && m !in sys.net && m.Reliable? && m.from == p ensures m.op != op {
      SentBySelf(cfg, sys, e, m);
      NewMessage(cfg, sys, e, p, m);
    }
  }

  lemma SamePeerSame(sys: System, p: PeerId, op: Operation, h: Relay)
    requires HeldBack(sys, p, op, h)
    ensures !NewIn(sys, sys, p, op)
  {
  }

  // The authority or the destination goes, and the whole pair with it.
  lemma EndedIsSpent(cfg: Config, sys: System, e: Event, p: PeerId, op: Operation)
    requires Grounded(sys) && AllIdsUsed(sys) && p in sys.peers && op.source == p && Unlisted(sys.peers[p], op)
    requires p in Step(cfg, sys, e).peers && Unlisted(Step(cfg, sys, e).peers[p], op) && Ends(e, p, op.destination)
    requires sys.peers[p].coordinator == p && Step(cfg, sys, e) != sys
    ensures Spent(Step(cfg, sys, e), p, op) && !NewIn(sys, Step(cfg, sys, e), p, op)
  {
    RR.OutsideMembers(sys.peers[p].relays, OnlyTo(op.destination));
    NoRelayIsSpent(cfg, sys, e, p, op);
  }

  // The head itself fails: it was the operation's own relay.
  lemma FailedIsSpent(cfg: Config, sys: System, e: Event, p: PeerId, op: Operation, h: Relay)
    requires Grounded(sys) && AllIdsUsed(sys) && HeldBack(sys, p, op, h) && FailsHead(e, p, h) && Step(cfg, sys, e) != sys
    requires p in Step(cfg, sys, e).peers && Unlisted(Step(cfg, sys, e).peers[p], op)
    ensures Spent(Step(cfg, sys, e), p, op) && !NewIn(sys, Step(cfg, sys, e), p, op)
  {
    var relays := sys.peers[p].relays;
    HeadFound(sys, p, h);
    var outcome := FinalHopFailure(LimitsOf(cfg, p), relays, e.key, DestinationUnavailable);
    ResultIs(cfg, p, relays, e.key, outcome);
    ApplyRelays(sys, p, p, outcome, Some(e.key.id), e.reach);
    WithoutMembers(relays, e.key);
    NoRelayIsSpent(cfg, sys, e, p, op);
  }

  // Nothing of the operation is newly sent in any continuation.
  lemma {:induction false} NeverNew(cfg: Config, sys: System, later: seq<Event>, p: PeerId, op: Operation, h: Relay)
    requires Grounded(sys) && AllIdsUsed(sys) && (HeldBack(sys, p, op, h) || Spent(sys, p, op))
    ensures var end := Run(cfg, sys, later);
            (HeldBack(end, p, op, h) || Spent(end, p, op)) && !NewIn(sys, end, p, op)
  {
    if later != [] {
      var front, e := later[..|later| - 1], later[|later| - 1];
      var mid := Run(cfg, sys, front);
      NeverNew(cfg, sys, front, p, op, h);
      RunIdsUsed(cfg, sys, front);
      RunStaysGrounded(cfg, sys, front);
      if Spent(mid, p, op) { SpentSendsNothing(cfg, mid, e, p, op); } else { HeldBackStaysOrSpent(cfg, mid, e, p, op, h); }
      NothingNewTwice(sys, mid, Step(cfg, mid, e), p, op);
    }
  }

  lemma NothingNewTwice(sys: System, mid: System, end: System, p: PeerId, op: Operation)
    requires !NewIn(sys, mid, p, op) && !NewIn(mid, end, p, op)
    ensures !NewIn(sys, end, p, op)
  {
  }

  // ---------- exactly when a cancelled operation goes out again ----------

  // Not in a loop and not queued: spent, or held back.
  lemma NotQueuedIsHeld(sys: System, p: PeerId, op: Operation) returns (h: Relay)
    requires Grounded(sys) && p in sys.peers && op.source == p && Unlisted(sys.peers[p], op) && !Queued(sys, p, op)
    requires forall k :: k in sys.peers[p].hops ==> sys.peers[p].hops[k].key != op.Key()
    ensures HeldBack(sys, p, op, h) || Spent(sys, p, op)
  {
    h := Relay(op, 0, 0);
    if !Spent(sys, p, op) {
      var r :| r in sys.peers[p].relays && r.op == op && FinalHop(p, r) !in sys.net;
      RelayHasHead(sys.peers[p].relays, r);
      h := Head(sys.peers[p].relays, r.op.source, r.op.destination).value;
      HeadIsIdle(sys, p, r, h);
    }
  }

  lemma HeadIsIdle(sys: System, p: PeerId, r: Relay, h: Relay)
    requires Grounded(sys) && p in sys.peers && r in sys.peers[p].relays && r.op.source == p && !WillGo(sys.peers[p], r)
    requires h in sys.peers[p].relays && IsHead(sys.peers[p].relays, h) && h.Between(p, r.op.destination)
    requires forall k :: k in sys.peers[p].hops ==> sys.peers[p].hops[k].key != r.Key()
    ensures IdleHead(sys, p, h) && (h == r || h.hop !in sys.peers[p].failing)
  {
    var q := sys.peers[p];
    assert PeerGrounded(sys, p, q);
    OwnHeadMovesAlone(sys, p, h);
    forall k | k in q.hops ensures !Concerns(sys, q, p, q.hops[k], h) {
      var found := Find(q.relays, q.hops[k].key);
      assert found.Some? ==> Known(sys, found.value.op) && found.value in q.relays;
      assert found.Some? && found.value.op.source == p && WaitsFor(q.hops[k], found.value.Key()) ==> IsHead(q.relays, found.value);
    }
  }

  ghost predicate CanGoOut(cfg: Config, sys: System, p: PeerId, op: Operation) {
    exists later :: NewIn(sys, Run(cfg, sys, later), p, op)
  }

  // After any run, a source cancels a send whose handle is unfinished. In some continuation
  // it newly sends the operation, under the CANCELLED handle, if and only if the operation
  // is in the rest of a submission loop, or the source coordinates and retains a relay of
  // it that was not sent and is a head that a RESUME sends or queues behind a head that
  // moves.
  lemma GoesOutIff(cfg: Config, start: System, past: seq<Event>, p: PeerId, op: Operation, sessions: set<nat>)
    requires Initial(start) && op.source == p
    requires var sys := Run(cfg, start, past);
             p in sys.peers && op.id in sys.peers[p].handles && !sys.peers[p].handles[op.id].Terminal()
    ensures var sys := Run(cfg, start, past);
            var cancelled := CancelStep(cfg, sys, p, op.id, sessions);
            CanGoOut(cfg, cancelled, p, op) <==> InProgress(sys.peers[p], op) || Queued(sys, p, op)
  {
    var sys := Run(cfg, start, past);
    EveryRunGrounded(cfg, start, past);
    assert AllIdsUsed(start);
    RunIdsUsed(cfg, start, past);
    CancelStaysGrounded(cfg, sys, p, op.id, sessions);
    CancelKeepsIds(cfg, sys, p, op.id, sessions);
    CancelKeepsLoops(cfg, sys, p, op, sessions);
    CancelKeepsQueued(cfg, sys, p, op, sessions);
    CancelledGoesOutIff(cfg, CancelStep(cfg, sys, p, op.id, sessions), p, op);
  }

  lemma CancelKeepsLoops(cfg: Config, sys: System, p: PeerId, op: Operation, sessions: set<nat>)
    requires AllIdsUsed(sys) && p in sys.peers && op.id in sys.peers[p].handles && !sys.peers[p].handles[op.id].Terminal()
    ensures var cancelled := CancelStep(cfg, sys, p, op.id, sessions);
            && p in cancelled.peers && op.id < cancelled.peers[p].nextId && op.id !in cancelled.peers[p].sends.live
            && (InProgress(cancelled.peers[p], op) <==> InProgress(sys.peers[p], op))
  {
    CancelTakesEffect(cfg, sys, p, op.id, sessions);
    assert IdsUsed(sys.peers[p]);
  }

  lemma CancelKeepsQueued(cfg: Config, sys: System, p: PeerId, op: Operation, sessions: set<nat>)
    requires Grounded(sys) && p in sys.peers && op.id in sys.peers[p].handles && !sys.peers[p].handles[op.id].Terminal() && op.source == p
    ensures var cancelled := CancelStep(cfg, sys, p, op.id, sessions);
            && p in cancelled.peers && (Queued(cancelled, p, op) <==> Queued(sys, p, op))
            && (forall k :: k in cancelled.peers[p].hops ==> cancelled.peers[p].hops[k].key != op.Key())
  {
    var q, q' := sys.peers[p], CancelStep(cfg, sys, p, op.id, sessions).peers[p];
    assert PeerGrounded(sys, p, q);
    forall r | r in q.relays && r.op == op ensures WillGo(q, r) <==> WillGo(q', r) {
      RelayHasHead(q.relays, r);
      var h := Head(q.relays, r.op.source, r.op.destination).value;
      if h != r {
        assert h.Key() != r.Key() by { if h.Key() == r.Key() { SameKeySame(q.relays, h, r); } }
        assert forall k :: k in q.hops && WaitsFor(q.hops[k], h.Key()) ==> k in q'.hops && q'.hops[k] == q.hops[k];
      }
    }
  }

  lemma CancelledGoesOutIff(cfg: Config, sys: System, p: PeerId, op: Operation)
    requires Grounded(sys) && AllIdsUsed(sys) && p in sys.peers && op.source == p && op.id < sys.peers[p].nextId
    requires op.id !in sys.peers[p].sends.live && forall k :: k in sys.peers[p].hops ==> sys.peers[p].hops[k].key != op.Key()
    ensures CanGoOut(cfg, sys, p, op) <==> InProgress(sys.peers[p], op) || Queued(sys, p, op)
  {
    if InProgress(sys.peers[p], op) {
      var later := InProgressGoes(cfg, sys, p, op);
      assert NewIn(sys, Run(cfg, sys, later), p, op);
    } else if Queued(sys, p, op) {
      var r :| r in sys.peers[p].relays && r.op == op && FinalHop(p, r) !in sys.net && WillGo(sys.peers[p], r);
      var later := QueuedGoes(cfg, sys, p, r);
      assert NewIn(sys, Run(cfg, sys, later), p, op);
    } else {
      var h := NotQueuedIsHeld(sys, p, op);
      forall later: seq<Event> ensures !NewIn(sys, Run(cfg, sys, later), p, op) { NeverNew(cfg, sys, later, p, op, h); }
    }
  }

  lemma InProgressGoes(cfg: Config, sys: System, p: PeerId, op: Operation) returns (later: seq<Event>)
    requires Grounded(sys) && p in sys.peers && InProgress(sys.peers[p], op)
    ensures NewIn(sys, Run(cfg, sys, later), p, op)
  {
    var k :| 0 <= k < |sys.peers[p].passes| && op in sys.peers[p].passes[k].rest;
    var j :| 0 <= j < |sys.peers[p].passes[k].rest| && sys.peers[p].passes[k].rest[j] == op;
    var whole := LoopReaches(cfg, sys, p, k, j, op);
    var i :| 0 <= i < |whole| && SubmitsOp(Run(cfg, sys, whole[..i]), whole[i], p, op);
    later := whole[..i] + [whole[i]];
    RunSnoc(cfg, sys, whole[..i], whole[i]);
    HopsGrow(cfg, sys, whole[..i]);
    SubmittedIsNew(cfg, sys, Run(cfg, sys, whole[..i]), whole[i], p, op);
  }

  lemma SubmittedIsNew(cfg: Config, sys: System, mid: System, e: Event, p: PeerId, op: Operation)
    requires Grounded(sys) && sys.nextHop <= mid.nextHop && SubmitsOp(mid, e, p, op)
    ensures NewIn(sys, Step(cfg, mid, e), p, op)
  {
    var m := Reliable(p, mid.peers[p].passes[e.pass].to, mid.nextHop, op);
    assert m in sys.net ==> MessageGrounded(sys, m);
    assert m in SubmitsStep(mid, p, e.pass, true).net;
  }

  lemma {:induction false} HopsGrow(cfg: Config, sys: System, later: seq<Event>)
    requires Grounded(sys)
    ensures sys.nextHop <= Run(cfg, sys, later).nextHop
  {
    if later != [] {
      HopsGrow(cfg, sys, later[..|later| - 1]);
      RunStaysGrounded(cfg, sys, later[..|later| - 1]);
      IssuedKept(cfg, Run(cfg, sys, later[..|later| - 1]), later[|later| - 1]);
    }
  }

  // ---------- a coordinator's own send, behind another ----------

  lemma AckPromotes(cfg: Config, sys: System, c: PeerId, ack: Message, gone: Relay)
    requires c in sys.peers && sys.peers[c].coordinator == c && Find(sys.peers[c].relays, gone.Key()) == Some(gone)
    requires ack.GenericAck? && ack in sys.net && ack.to == c && ack.hop in sys.peers[c].hops && gone.op.mode == ReliableAcked
    requires WaitsFor(sys.peers[c].hops[ack.hop], gone.Key()) && sys.peers[c].hops[ack.hop].peer == ack.from
    ensures Promoted(AckArrivesStep(cfg, sys, c, ack, Done), c, sys.peers[c].relays, gone)
  {
    var q := sys.peers[c];
    ResultPromotes(cfg, With(sys, c, q.(hops := WithoutHop(q.hops, ack.hop)), {}), c, gone,
                   Acknowledged(LimitsOf(cfg, c), q.relays, gone.Key()), Some(gone.op.id));
  }

  // Peer 2 coordinates and sends twice to peer 3; the second send queues behind the first.
  const FIRST := Operation(2, 3, 0, ReliableAcked, Normal, [])
  const SECOND := Operation(2, 3, 1, ReliableAcked, Normal, [])
  const ROOM := Config(0, 2, MR.Caps(1, 1))
  const BOTH_SENT: seq<Event> := [Originate(2, 3, ReliableAcked, Normal, [], true), Originate(2, 3, ReliableAcked, Normal, [], true)]
  const ANSWERED := GenericAck(3, 2, 0)

  function OneSent(): System {
    ST.Beginning().(
      peers := ST.Beginning().peers[2 := ST.Fresh().(
        nextId := 1, handles := map[0 := Transmitting], relays := [Relay(FIRST, 0, 0)], hops := map[0 := Hop(FIRST.Key(), 3, true)])],
      net := {Reliable(2, 3, 0, FIRST)}, bound := map[0 := Binding(FIRST, true)], nextHop := 1, issued := map[FIRST.Key() := FIRST])
  }

  function TwoSent(): System {
    OneSent().(
      peers := ST.Beginning().peers[2 := OneSent().peers[2].(
        nextId := 2, handles := map[0 := Transmitting, 1 := Transmitting], relays := [Relay(FIRST, 0, 0), Relay(SECOND, 1, 0)])],
      bound := map[0 := Binding(FIRST, true), 1 := Binding(SECOND, true)], nextHop := 2,
      issued := map[FIRST.Key() := FIRST, SECOND.Key() := SECOND])
  }

  lemma FirstStep()
    ensures Step(ROOM, ST.Beginning(), BOTH_SENT[0]) == OneSent()
  {
    var named := Named(ST.Beginning(), 2, FIRST);
    var r := Relay(FIRST, 0, 0);
    assert OwnOutcome(ROOM, named, 2, FIRST, true) == Outcome(Ok(Actions(forward := Some(r))), [r]);
    assert Step(ROOM, ST.Beginning(), BOTH_SENT[0]) == Apply(Bind(named, FIRST, true), 2, 2, Outcome(Ok(Actions(forward := Some(r))), [r]), Some(0), Done);
  }

  lemma SecondStep()
    ensures Step(ROOM, OneSent(), BOTH_SENT[1]) == TwoSent()
  {
    var named := Named(OneSent(), 2, SECOND);
    var held := [Relay(FIRST, 0, 0)];
    SecondQueues(held);
    assert OwnOutcome(ROOM, named, 2, SECOND, true) == Outcome(Ok(Actions()), held + [Relay(SECOND, 1, 0)]);
    assert Step(ROOM, OneSent(), BOTH_SENT[1]) == Apply(Bind(named, SECOND, true), 2, 2, Outcome(Ok(Actions()), held + [Relay(SECOND, 1, 0)]), Some(1), Done);
    assert held + [Relay(SECOND, 1, 0)] == [Relay(FIRST, 0, 0), Relay(SECOND, 1, 0)];
  }

  lemma SecondQueues(held: seq<Relay>)
    requires held == [Relay(FIRST, 0, 0)]
    ensures Admitted(LimitsOf(ROOM, 2), held, Relay(SECOND, 1, 0), 0, ST.EVERYONE, true) == Outcome(Ok(Actions()), held + [Relay(SECOND, 1, 0)])
  {
    assert held[..0] == [];
    assert Find(held, SECOND.Key()) == None;
    assert Bytes(held, 3) == 0 && Messages(held, 3) == 1;
    assert OfPair(held, 2, 3) == held;
  }

  // The second send is cancelled before anything of it was sent; then the ACK of the first
  // arrives, and the second is sent and waited for.
  lemma CancelledBehindHead()
    ensures var (cancel, acked) := (CancelSend(2, 1, {}), AckArrives(2, ANSWERED));
            var arrival := Receive(3, Reliable(2, 3, 0, FIRST), true);
            var before := Run(ROOM, ST.Beginning(), BOTH_SENT);
            var end := Run(ROOM, before, [cancel, arrival] + [acked]);
            && before == TwoSent() && FinalHop(2, Relay(SECOND, 1, 0)) !in before.net && !InProgress(before.peers[2], SECOND)
            && 2 in end.peers && 1 in end.peers[2].handles && end.peers[2].handles[1] == Cancelled
            && FinalHop(2, Relay(SECOND, 1, 0)) in end.net && 1 in end.peers[2].hops
  {
    BothSent();
    AfterCancel();
  }

  lemma BothSent()
    ensures Run(ROOM, ST.Beginning(), BOTH_SENT) == TwoSent()
  {
    FirstStep();
    SecondStep();
    RunTwo(ROOM, ST.Beginning(), BOTH_SENT[0], BOTH_SENT[1]);
  }

  lemma AfterCancel()
    ensures var end := Run(ROOM, TwoSent(), [CancelSend(2, 1, {}), Receive(3, Reliable(2, 3, 0, FIRST), true)] + [AckArrives(2, ANSWERED)]);
            && 2 in end.peers && 1 in end.peers[2].handles && end.peers[2].handles[1] == Cancelled
            && FinalHop(2, Relay(SECOND, 1, 0)) in end.net && 1 in end.peers[2].hops
  {
    var cancelled, m := CancelStep(ROOM, TwoSent(), 2, 1, {}), Reliable(2, 3, 0, FIRST);
    AnsweredByThree(cancelled);
    SecondGoesOut(ReceiveStep(ROOM, cancelled, 3, m, true, Done));
    ThreeSteps(TwoSent(), m);
  }

  lemma ThreeSteps(sys: System, m: Message)
    ensures Run(ROOM, sys, [CancelSend(2, 1, {}), Receive(3, m, true)] + [AckArrives(2, ANSWERED)])
            == AckArrivesStep(ROOM, ReceiveStep(ROOM, CancelStep(ROOM, sys, 2, 1, {}), 3, m, true, Done), 2, ANSWERED, Done)
  {
    RunTwo(ROOM, sys, CancelSend(2, 1, {}), Receive(3, m, true));
    RunSnoc(ROOM, sys, [CancelSend(2, 1, {}), Receive(3, m, true)], AckArrives(2, ANSWERED));
  }

  lemma AnsweredByThree(sys: System)
    requires sys == CancelStep(ROOM, TwoSent(), 2, 1, {})
    ensures var sys' := ReceiveStep(ROOM, sys, 3, Reliable(2, 3, 0, FIRST), true, Done);
            && ANSWERED in sys'.net && 2 in sys'.peers && sys'.peers[2].coordinator == 2
            && sys'.peers[2].relays == TwoSent().peers[2].relays && sys'.peers[2].hops == TwoSent().peers[2].hops
            && 1 in sys'.peers[2].handles && sys'.peers[2].handles[1] == Cancelled
  {
    assert sys.peers[2].hops == TwoSent().peers[2].hops;
    assert Accept([], DEDUP_WINDOW, FIRST).0 == Ok(true);
  }

  lemma SecondGoesOut(sys: System)
    requires ANSWERED in sys.net && 2 in sys.peers && sys.peers[2].coordinator == 2
    requires sys.peers[2].relays == TwoSent().peers[2].relays && sys.peers[2].hops == TwoSent().peers[2].hops
    requires 1 in sys.peers[2].handles && sys.peers[2].handles[1] == Cancelled
    ensures var end := AckArrivesStep(ROOM, sys, 2, ANSWERED, Done);
            && 2 in end.peers && 1 in end.peers[2].handles && end.peers[2].handles[1] == Cancelled
            && FinalHop(2, Relay(SECOND, 1, 0)) in end.net && 1 in end.peers[2].hops
  {
    SecondIsNext();
    AckPromotes(ROOM, sys, 2, ANSWERED, Relay(FIRST, 0, 0));
    AckArrivesSettles(ROOM, sys, 2, ANSWERED, Done);
  }

  lemma SecondIsNext()
    ensures var relays := [Relay(FIRST, 0, 0), Relay(SECOND, 1, 0)];
            && Find(relays, FIRST.Key()) == Some(Relay(FIRST, 0, 0))
            && Head(Without(relays, FIRST.Key()), 2, 3) == Some(Relay(SECOND, 1, 0))
  {
    var relays := [Relay(FIRST, 0, 0), Relay(SECOND, 1, 0)];
    assert relays == [] + [Relay(FIRST, 0, 0)] + [Relay(SECOND, 1, 0)];
    WithoutMiddle([], Relay(FIRST, 0, 0), [Relay(SECOND, 1, 0)]);
    assert [] + [Relay(SECOND, 1, 0)] == [Relay(SECOND, 1, 0)];
    assert relays[..1] == [Relay(FIRST, 0, 0)];
    PairAppended([], Relay(SECOND, 1, 0), 2, 3);
  }
}
