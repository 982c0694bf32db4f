/**
 When a destination may answer stale traffic of a former coordinator: the exact condition
 in the state of the answer, over every run before it and every continuation after it. A
 hop that the coordinator no longer waits for can come back, and when it cannot, the
 answer changes nothing.
 */
module StaleAnswers {
  import opened Types
  import opened RelayTable
  import opened RelayController
  import MR = MemberRouter
  import RR = RelayRuns
  import opened RoutedDelivery
  import opened AckSoundness
  import opened RoutedGuarantees
  import opened HandleLaws
  import opened RelayShape
  import opened Provenance
  import opened StuckHeads
  import opened StaleTraffic

  // ---------- a forgotten hop that comes back ----------

  // The relay of a forgotten hop is the oldest of its pair: its final hop has been sent.
  lemma ForgottenIsHead(sys: System, m: Message) returns (r: Relay)
    requires Inv(sys) && Grounded(sys) && Answerable(sys, m.to, m) && HopForgotten(sys, m)
    ensures r in sys.peers[m.from].relays && r.hop == m.hop && r.op == m.op && IsHead(sys.peers[m.from].relays, r)
    ensures sys.peers[m.from].coordinator == m.from
  {
    r :| r in sys.peers[m.from].relays && r.hop == m.hop;
    assert PeerSound(sys, m.from, sys.peers[m.from]) && MessageSound(sys, m);
    assert FinalHop(m.from, r) == m;
    assert PeerGrounded(sys, m.from, sys.peers[m.from]);
  }

  // The relay of a final hop, for the sake of its pair.
  function RelayOf(m: Message): Relay
    requires m.Reliable?
  {
    Relay(m.op, m.hop, |m.op.bytes|)
  }

  // A hop that the coordinator still waits for under another relay of the pair: one that
  // is left from an earlier authority. Its result makes the coordinator forward the oldest
  // relay of the pair again.
  ghost predicate Mate(sys: System, m: Message, k: nat)
    requires m.Reliable?
  {
    && m.from in sys.peers && k in sys.peers[m.from].hops && sys.peers[m.from].hops[k].key != m.op.Key()
    && MovesPair(sys.peers[m.from], sys.peers[m.from].hops[k], RelayOf(m))
  }

  // What the result of the other relay leaves of the coordinator.
  predicate Returned(q: Peer, q1: Peer, m: Message, key: MessageKey)
    requires m.Reliable?
  {
    && q1 == q.(relays := Without(q.relays, key), hops := q1.hops, handles := q1.handles)
    && m.hop in q1.hops && (Over(q1, m.op.id) <==> Over(q, m.op.id))
  }

  lemma MateTimesOut(cfg: Config, sys: System, m: Message, k: nat, r: Relay)
    requires Answerable(sys, m.to, m) && Mate(sys, m, k) && sys.peers[m.from].coordinator == m.from
    requires r.op == m.op && r.hop == m.hop && IsHead(sys.peers[m.from].relays, r)
    ensures var (c, sys1) := (m.from, HopTimesOutStep(cfg, sys, m.from, k, Done));
            && c in sys1.peers && sys1 == sys.(peers := sys.peers[c := sys1.peers[c]], net := sys1.net) && sys.net <= sys1.net
            && Returned(sys.peers[c], sys1.peers[c], m, sys.peers[c].hops[k].key)
  {
    var c := m.from;
    var q := sys.peers[c];
    var key := q.hops[k].key;
    var rest := q.(hops := WithoutHop(q.hops, k));
    var outcome := FinalHopFailure(LimitsOf(cfg, c), q.relays, key, DestinationAckTimeout);
    WithoutKeepsHead(q.relays, key, r);
    assert outcome.result.value.forward == Some(r);
    MateReturns(rest.(relays := outcome.relays), outcome.result.value, m, key);
    assert HopTimesOutStep(cfg, sys, c, k, Done) == Apply(With(sys, c, rest, {}), c, c, outcome, Some(key.id), Done);
  }

  lemma MateReturns(q: Peer, a: Actions, m: Message, key: MessageKey)
    requires m.Reliable? && a.deliver.None? && a.forward.Some? && a.forward.value.op == m.op && a.forward.value.hop == m.hop
    requires m.op.mode == ReliableAcked && key.id != m.op.id
    ensures var q1 := Performed(q, a, Some(key.id));
            && q1 == q.(hops := q1.hops, handles := q1.handles) && m.hop in q1.hops
            && (Over(q1, m.op.id) <==> Over(q, m.op.id))
  {
  }

  // The coordinator still waits, as unsafely as before, and no longer forgets the hop.
  lemma StillUnsafe(sys: System, sys1: System, m: Message, key: MessageKey, r: Relay)
    requires Answerable(sys, m.to, m) && Unsafe(sys, m) && key != r.Key()
    requires r in sys.peers[m.from].relays && r.op == m.op && r.hop == m.hop
    requires m.from in sys1.peers && sys1.peers == sys.peers[m.from := sys1.peers[m.from]]
    requires Returned(sys.peers[m.from], sys1.peers[m.from], m, key)
    ensures Unsafe(sys1, m) && !HopForgotten(sys1, m)
  {
    WithoutMembers(sys.peers[m.from].relays, key);
    FoundMember(sys1.peers[m.from].relays, r);
    StillUncommitted(sys, sys1, m, key);
    if m.op.source != m.from { StillHeard(sys, sys1, m); }
  }

  lemma StillUncommitted(sys: System, sys1: System, m: Message, key: MessageKey)
    requires Answerable(sys, m.to, m) && m.from in sys.peers && m.from in sys1.peers && !Committed(sys, m.op)
    requires sys1.peers == sys.peers[m.from := sys1.peers[m.from]]
    requires Returned(sys.peers[m.from], sys1.peers[m.from], m, key)
    ensures !Committed(sys1, m.op)
  {
  }

  lemma StillHeard(sys: System, sys1: System, m: Message)
    requires m.Reliable? && m.from in sys1.peers && sys1.peers == sys.peers[m.from := sys1.peers[m.from]]
    requires m.op.source != m.from && !Unheard(sys, m.from, m.op)
    ensures !Unheard(sys1, m.from, m.op)
  {
    assert m.op.source in sys.peers && sys1.peers[m.op.source] == sys.peers[m.op.source];
  }

  lemma StillAnswerable(sys: System, sys1: System, m: Message)
    requires m.Reliable? && Answerable(sys, m.to, m) && m.from in sys.peers && m.from in sys1.peers
    requires sys1 == sys.(peers := sys.peers[m.from := sys1.peers[m.from]], net := sys1.net) && sys.net <= sys1.net
    requires sys1.peers[m.from].coordinator == sys.peers[m.from].coordinator == m.from
    requires m.hop in sys.bound && sys.bound[m.hop].finalHop && Unsafe(sys1, m)
    ensures Answerable(sys1, m.to, m) && !SafeAnswer(sys1, m)
  {
  }

  // The step of the other hop's result.
  lemma MateReturnsTo(cfg: Config, sys: System, m: Message, k: nat)
    requires Inv(sys) && Shaped(cfg, sys) && Grounded(sys)
    requires Answerable(sys, m.to, m) && !SafeAnswer(sys, m) && HopForgotten(sys, m) && Mate(sys, m, k)
    ensures var sys1 := HopTimesOutStep(cfg, sys, m.from, k, Done);
            Inv(sys1) && Shaped(cfg, sys1) && Answerable(sys1, m.to, m) && !SafeAnswer(sys1, m) && !HopForgotten(sys1, m)
  {
    UnsafeMeans(sys, m);
    var r := ForgottenIsHead(sys, m);
    MateStillUnsafe(cfg, sys, m, k, r);
    TimeoutKeeps(cfg, sys, m.from, k);
  }

  lemma TimeoutKeeps(cfg: Config, sys: System, c: PeerId, k: nat)
    requires Inv(sys) && Shaped(cfg, sys)
    ensures var sys1 := HopTimesOutStep(cfg, sys, c, k, Done); Inv(sys1) && Shaped(cfg, sys1)
  {
    HopTimesOutKeepsInv(cfg, sys, c, k, Done);
    HopTimesOutKeepsShape(cfg, sys, c, k, Done);
  }

  lemma MateStillUnsafe(cfg: Config, sys: System, m: Message, k: nat, r: Relay)
    requires Answerable(sys, m.to, m) && Unsafe(sys, m) && Mate(sys, m, k)
    requires m.hop in sys.bound && sys.bound[m.hop].finalHop && sys.peers[m.from].coordinator == m.from
    requires r in sys.peers[m.from].relays && r.op == m.op && r.hop == m.hop && IsHead(sys.peers[m.from].relays, r)
    ensures var sys1 := HopTimesOutStep(cfg, sys, m.from, k, Done);
            Answerable(sys1, m.to, m) && !SafeAnswer(sys1, m) && !HopForgotten(sys1, m)
  {
    MateTimesOut(cfg, sys, m, k, r);
    var sys1 := HopTimesOutStep(cfg, sys, m.from, k, Done);
    StillUnsafe(sys, sys1, m, sys.peers[m.from].hops[k].key, r);
    StillAnswerable(sys, sys1, m);
  }

  // Both systems take the step; the answer stays on its way.
  lemma SameStepAnswered(cfg: Config, sys: System, answered: System, c: PeerId, k: nat)
    requires c in sys.peers && answered == sys.(net := answered.net) && sys.net <= answered.net
    ensures var (sys1, answered1) := (HopTimesOutStep(cfg, sys, c, k, Done), HopTimesOutStep(cfg, answered, c, k, Done));
            answered1 == sys1.(net := answered1.net) && answered.net <= answered1.net
    ensures Step(cfg, answered, HopTimesOut(c, k)) == HopTimesOutStep(cfg, answered, c, k, Done)
  {
  }

  lemma FirstThen(cfg: Config, sys: System, e: Event, sys1: System, op: Operation)
    requires !e.ReceiveStale? && sys1 == Step(cfg, sys, e) && exists later :: Plain(later) && Misreports(cfg, sys1, later, op)
    ensures exists later :: Plain(later) && Misreports(cfg, sys, later, op)
  {
    var later :| Plain(later) && Misreports(cfg, sys1, later, op);
    RunOne(cfg, sys, e);
    RunConcat(cfg, sys, [e], later);
    assert Plain([e] + later) && Misreports(cfg, sys, [e] + later, op);
  }

  // A coordinator that has forgotten the hop, and waits for an old hop of another relay of
  // the pair, is no better than one that waits for the hop itself.
  lemma ForgottenHopGoesWrong(cfg: Config, sys: System, answered: System, m: Message, k: nat)
    requires Inv(sys) && Shaped(cfg, sys) && Grounded(sys)
    requires Answerable(sys, m.to, m) && !SafeAnswer(sys, m) && HopForgotten(sys, m) && Mate(sys, m, k)
    requires answered == sys.(net := answered.net) && sys.net <= answered.net && GenericAck(m.to, m.from, m.hop) in answered.net
    ensures exists later :: Plain(later) && Misreports(cfg, answered, later, m.op)
  {
    var sys1, answered1 := HopTimesOutStep(cfg, sys, m.from, k, Done), HopTimesOutStep(cfg, answered, m.from, k, Done);
    MateReturnsTo(cfg, sys, m, k);
    SameStepAnswered(cfg, sys, answered, m.from, k);
    UnsafeWaitMisreports(cfg, sys1, answered1, m);
    FirstThen(cfg, answered, HopTimesOut(m.from, k), answered1, m.op);
  }

  // The coordinator waits for the hop, or can be brought back to it.
  ghost predicate Recoverable(sys: System, m: Message)
    requires m.Reliable?
  {
    !HopForgotten(sys, m) || exists k :: Mate(sys, m, k)
  }

  lemma AnswerAdds(sys: System, m: Message)
    requires m.Reliable? && Answerable(sys, m.to, m)
    ensures var answered := ReceiveStaleStep(sys, m.to, m);
            answered == sys.(net := answered.net) && sys.net <= answered.net && GenericAck(m.to, m.from, m.hop) in answered.net
  {
    assert ReceiveStaleStep(sys, m.to, m).peers == sys.peers;
  }

  lemma UnsafeAnswerMisreports(cfg: Config, sys: System, m: Message)
    requires Inv(sys) && Shaped(cfg, sys) && Grounded(sys)
    requires Answerable(sys, m.to, m) && !SafeAnswer(sys, m) && Recoverable(sys, m)
    ensures exists later :: Plain(later) && Misreports(cfg, ReceiveStaleStep(sys, m.to, m), later, m.op)
  {
    AnswerAdds(sys, m);
    if !HopForgotten(sys, m) {
      UnsafeWaitMisreports(cfg, sys, ReceiveStaleStep(sys, m.to, m), m);
    } else {
      var k :| Mate(sys, m, k);
      ForgottenHopGoesWrong(cfg, sys, ReceiveStaleStep(sys, m.to, m), m, k);
    }
  }

  // ---------- a forgotten hop that does not come back ----------

  // A hop of the pair is left over for an operation that a member would have to send again
  // before the result could move anything.
  ghost predicate StrayHop(sys: System, m: Message)
    requires m.Reliable?
  {
    m.from in sys.peers && LeftOver(sys, m.from, RelayOf(m))
  }

  // Nobody waits for the hop, and its relay, if it is still there, is a head that no other
  // result can move.
  ghost predicate Forgotten(sys: System, m: Message, r: Relay)
    requires m.Reliable?
  {
    && m.from in sys.peers && m.hop !in sys.peers[m.from].hops && m.hop < sys.nextHop && r.hop == m.hop
    && (r in sys.peers[m.from].relays ==> QuietHead(sys, m.from, r))
    && (forall x :: x in sys.peers[m.from].relays && x.hop == m.hop ==> x == r)
  }

  lemma ForgottenIsQuiet(sys: System, m: Message) returns (r: Relay)
    requires Inv(sys) && Grounded(sys) && Answerable(sys, m.to, m) && !Recoverable(sys, m) && !StrayHop(sys, m)
    ensures Forgotten(sys, m, r)
  {
    r := ForgottenIsHead(sys, m);
    var q := sys.peers[m.from];
    assert PeerGrounded(sys, m.from, q);
    forall k | k in q.hops ensures !Concerns(sys, q, m.from, q.hops[k], r) {
      var found := Find(q.relays, q.hops[k].key);
      assert found.Some? ==> Known(sys, found.value.op);
      assert !Mate(sys, m, k);
      assert m.op.source != m.from ==> !LeftOverHop(sys, q, q.hops[k], RelayOf(m));
    }
  }

  lemma StepKeepsForgotten(cfg: Config, sys: System, e: Event, m: Message, r: Relay)
    requires Grounded(sys) && AllIdsUsed(sys) && m.Reliable? && Forgotten(sys, m, r)
    ensures Forgotten(Step(cfg, sys, e), m, r)
  {
    var c, sys' := m.from, Step(cfg, sys, e);
    Elsewhere(cfg, sys, e, c);
    IssuedKept(cfg, sys, e);
    forall x | x in sys'.peers[c].relays && x.hop == m.hop ensures x == r && x in sys.peers[c].relays {
      if x !in sys.peers[c].relays { NewRelay(cfg, sys, e, c, x); }
    }
    if r in sys'.peers[c].relays {
      StillQuiet(cfg, sys, e, m, r);
    } else if m.hop in sys'.peers[c].hops {
      WaitsBegin(cfg, sys, e, c, m.hop);
    }
  }

  // While the relay is there, no event takes it away.
  lemma StillQuiet(cfg: Config, sys: System, e: Event, m: Message, r: Relay)
    requires Grounded(sys) && AllIdsUsed(sys) && m.Reliable? && Forgotten(sys, m, r) && r in sys.peers[m.from].relays
    requires m.from in Step(cfg, sys, e).peers && r in Step(cfg, sys, e).peers[m.from].relays
    ensures QuietHead(Step(cfg, sys, e), m.from, r) && m.hop !in Step(cfg, sys, e).peers[m.from].hops
  {
    if Step(cfg, sys, e) != sys {
      if Ends(e, m.from, r.op.destination) { EndsRemoves(cfg, sys, e, m.from, r); }
      if Touches(sys, e, m.from, r) { TouchesRemoves(cfg, sys, e, m.from, r); }
      StepStaysQuiet(cfg, sys, e, m.from, r);
    }
  }

  lemma EndsRemoves(cfg: Config, sys: System, e: Event, c: PeerId, r: Relay)
    requires c in sys.peers && sys.peers[c].coordinator == c && Ends(e, c, r.op.destination) && Step(cfg, sys, e) != sys
    ensures c in Step(cfg, sys, e).peers && r !in Step(cfg, sys, e).peers[c].relays
  {
    if e.DestinationGone? { RR.OutsideMembers(sys.peers[c].relays, OnlyTo(r.op.destination)); }
  }

  lemma TouchesRemoves(cfg: Config, sys: System, e: Event, c: PeerId, r: Relay)
    requires Grounded(sys) && c in sys.peers && sys.peers[c].coordinator == c && r in sys.peers[c].relays
    requires Touches(sys, e, c, r) && Step(cfg, sys, e) != sys
    ensures c in Step(cfg, sys, e).peers && r !in Step(cfg, sys, e).peers[c].relays
  {
    HeadFound(sys, c, r);
    if e.ForwardFails? {
      FailureRemoves(cfg, sys, c, r, e.reach);
    } else if e.AckArrives? {
      AckRemoves(cfg, sys, c, e.message, r, e.reach);
    } else {
      TimeoutRemoves(cfg, sys, c, e.hop, r, e.reach);
    }
  }

  lemma FailureRemoves(cfg: Config, sys: System, c: PeerId, r: Relay, reach: Reach)
    requires c in sys.peers && sys.peers[c].coordinator == c && Find(sys.peers[c].relays, r.Key()) == Some(r)
    requires ForwardFailsStep(cfg, sys, c, r.Key(), reach) != sys
    ensures var sys' := ForwardFailsStep(cfg, sys, c, r.Key(), reach); c in sys'.peers && r !in sys'.peers[c].relays
  {
    ResultRemoves(cfg, sys, c, r, FinalHopFailure(LimitsOf(cfg, c), sys.peers[c].relays, r.Key(), DestinationUnavailable), Some(r.op.id), reach);
  }

  lemma AckRemoves(cfg: Config, sys: System, c: PeerId, x: Message, r: Relay, reach: Reach)
    requires c in sys.peers && sys.peers[c].coordinator == c && Find(sys.peers[c].relays, r.Key()) == Some(r)
    requires x.GenericAck? && EndsWait(sys.peers[c], x.hop, r) && AckArrivesStep(cfg, sys, c, x, reach) != sys
    ensures var sys' := AckArrivesStep(cfg, sys, c, x, reach); c in sys'.peers && r !in sys'.peers[c].relays
  {
    var q := sys.peers[c];
    ResultRemoves(cfg, With(sys, c, q.(hops := WithoutHop(q.hops, x.hop)), {}), c, r,
                  Acknowledged(LimitsOf(cfg, c), q.relays, r.Key()), Some(r.op.id), reach);
  }

  lemma TimeoutRemoves(cfg: Config, sys: System, c: PeerId, k: nat, r: Relay, reach: Reach)
    requires c in sys.peers && sys.peers[c].coordinator == c && Find(sys.peers[c].relays, r.Key()) == Some(r)
    requires EndsWait(sys.peers[c], k, r)
    ensures var sys' := HopTimesOutStep(cfg, sys, c, k, reach); c in sys'.peers && r !in sys'.peers[c].relays
  {
    var q := sys.peers[c];
    ResultRemoves(cfg, With(sys, c, q.(hops := WithoutHop(q.hops, k)), {}), c, r,
                  FinalHopFailure(LimitsOf(cfg, c), q.relays, r.Key(), DestinationAckTimeout), Some(r.op.id), reach);
  }

  lemma ResultRemoves(cfg: Config, sys: System, c: PeerId, r: Relay, outcome: Outcome, local: Option<GroupMessageId>, reach: Reach)
    requires c in sys.peers && Find(sys.peers[c].relays, r.Key()) == Some(r) && ResultFor(cfg, c, sys.peers[c].relays, r.Key(), outcome)
    ensures var sys' := Apply(sys, c, c, outcome, local, reach); c in sys'.peers && r !in sys'.peers[c].relays
  {
    ApplyRelays(sys, c, c, outcome, local, reach);
    ResultIs(cfg, c, sys.peers[c].relays, r.Key(), outcome);
    WithoutMembers(sys.peers[c].relays, r.Key());
  }

  // The same system with one more answer on its way.
  predicate Twin(sys: System, answered: System, ack: Message) { answered == sys.(net := sys.net + {ack}) }

  lemma ApplyTwin(sys: System, answered: System, ack: Message, c: PeerId, from: PeerId, outcome: Outcome,
                  local: Option<GroupMessageId>, reach: Reach)
    requires Twin(sys, answered, ack) && c in sys.peers
    ensures Twin(Apply(sys, c, from, outcome, local, reach), Apply(answered, c, from, outcome, local, reach), ack)
  {
    assert Apply(answered, c, from, outcome, local, reach).net == Apply(sys, c, from, outcome, local, reach).net + {ack};
  }

  lemma WithTwin(sys: System, answered: System, ack: Message, p: PeerId, q: Peer, messages: set<Message>)
    requires Twin(sys, answered, ack)
    ensures Twin(With(sys, p, q, messages), With(answered, p, q, messages), ack)
  {
    assert With(answered, p, q, messages).net == With(sys, p, q, messages).net + {ack};
  }

  lemma OriginateTwin(cfg: Config, sys: System, answered: System, ack: Message, e: Event)
    requires Twin(sys, answered, ack) && e.Originate?
    ensures Twin(Step(cfg, sys, e), Step(cfg, answered, e), ack)
  {
    if Step(cfg, sys, e) != sys {
      var p := e.source;
      var op := Operation(p, e.destination, sys.peers[p].nextId, e.mode, e.priority, e.bytes);
      NamedTwin(sys, answered, ack, p, op);
      if sys.peers[p].coordinator == p {
        OwnOriginTwin(cfg, Named(sys, p, op), Named(answered, p, op), ack, p, op, e.ready, e.reach);
      } else {
        MemberOriginTwin(cfg, Named(sys, p, op), Named(answered, p, op), ack, p, op, e.ready);
      }
    }
  }

  lemma NamedTwin(sys: System, answered: System, ack: Message, p: PeerId, op: Operation)
    requires Twin(sys, answered, ack) && p in sys.peers
    ensures Twin(Named(sys, p, op), Named(answered, p, op), ack) && p in Named(sys, p, op).peers
  {
  }

  lemma MemberOriginTwin(cfg: Config, sys: System, answered: System, ack: Message, p: PeerId, op: Operation, ready: bool)
    requires Twin(sys, answered, ack) && p in sys.peers
    ensures Twin(OriginateAsMember(cfg, sys, p, op, ready), OriginateAsMember(cfg, answered, p, op, ready), ack)
  {
    assert sys.net + {ack} + {} == sys.net + {} + {ack};
  }

  lemma OwnOriginTwin(cfg: Config, sys: System, answered: System, ack: Message, p: PeerId, op: Operation, ready: bool, reach: Reach)
    requires Twin(sys, answered, ack) && p in sys.peers
    ensures Twin(OriginateAsCoordinator(cfg, sys, p, op, ready, reach), OriginateAsCoordinator(cfg, answered, p, op, ready, reach), ack)
  {
    var outcome := OwnOutcome(cfg, sys, p, op, ready);
    ApplyTwin(Bind(sys, op, true), Bind(answered, op, true), ack, p, p, outcome, Some(op.id), reach);
    var one, two := Apply(Bind(sys, op, true), p, p, outcome, Some(op.id), reach), Apply(Bind(answered, op, true), p, p, outcome, Some(op.id), reach);
    if OriginFails(outcome, reach) { WithTwin(one, two, ack, p, Complete(one.peers[p], op.id, Failed), {}); }
  }

  lemma ReceiveTwin(cfg: Config, sys: System, answered: System, ack: Message, p: PeerId, m: Message, ready: bool, reach: Reach)
    requires Twin(sys, answered, ack) && ack.GenericAck?
    ensures Twin(ReceiveStep(cfg, sys, p, m, ready, reach), ReceiveStep(cfg, answered, p, m, ready, reach), ack)
  {
    if ReceiveStep(cfg, sys, p, m, ready, reach) != sys {
      if sys.peers[p].coordinator == p {
        ApplyTwin(Bind(sys, m.op, true), Bind(answered, m.op, true), ack, p, m.from, AdmittedOutcome(cfg, sys, p, m.op, m.hop, ready), None, reach);
      } else {
        var (q, acks) := AtDestination(sys.peers[p], p, m, reach);
        WithTwin(sys, answered, ack, p, q, acks);
      }
    }
  }

  lemma AckTwin(cfg: Config, sys: System, answered: System, ack: Message, p: PeerId, m: Message, reach: Reach)
    requires Twin(sys, answered, ack) && ack.GenericAck? && (ack.to in sys.peers ==> ack.hop !in sys.peers[ack.to].hops)
    ensures Twin(AckArrivesStep(cfg, sys, p, m, reach), AckArrivesStep(cfg, answered, p, m, reach), ack)
  {
    if AckArrivesStep(cfg, sys, p, m, reach) != sys {
      var q := sys.peers[p];
      var hop := q.hops[m.hop];
      var rest := q.(hops := WithoutHop(q.hops, m.hop));
      WithTwin(sys, answered, ack, p, rest, {});
      if hop.finalHop && q.coordinator == p {
        ApplyTwin(With(sys, p, rest, {}), With(answered, p, rest, {}), ack, p, p, Acknowledged(LimitsOf(cfg, p), q.relays, hop.key),
                  Some(hop.key.id), reach);
      }
    }
  }

  lemma TimeoutTwin(cfg: Config, sys: System, answered: System, ack: Message, p: PeerId, hop: nat, reach: Reach)
    requires Twin(sys, answered, ack)
    ensures Twin(HopTimesOutStep(cfg, sys, p, hop, reach), HopTimesOutStep(cfg, answered, p, hop, reach), ack)
  {
    if p in sys.peers && hop in sys.peers[p].hops {
      var q := sys.peers[p];
      var key := q.hops[hop].key;
      var rest := q.(hops := WithoutHop(q.hops, hop));
      WithTwin(sys, answered, ack, p, rest, {});
      if q.hops[hop].finalHop {
        ApplyTwin(With(sys, p, rest, {}), With(answered, p, rest, {}), ack, p, p,
                  FinalHopFailure(LimitsOf(cfg, p), q.relays, key, DestinationAckTimeout), Some(key.id), reach);
      } else {
        WithTwin(sys, answered, ack, p, SourceTimedOut(rest, key.id), {});
      }
    }
  }

  lemma ForwardResultTwin(cfg: Config, sys: System, answered: System, ack: Message, e: Event)
    requires Twin(sys, answered, ack) && ack.GenericAck? && (e.OrderedHopSubmitted? || e.ForwardFails?)
    ensures Twin(Step(cfg, sys, e), Step(cfg, answered, e), ack)
  {
    if Step(cfg, sys, e) != sys {
      match e
      case OrderedHopSubmitted(p, key, reach) =>
        ApplyTwin(sys, answered, ack, p, p, Submitted(LimitsOf(cfg, p), sys.peers[p].relays, key), None, reach);
      case ForwardFails(p, key, reach) =>
        ApplyTwin(sys, answered, ack, p, p, FinalHopFailure(LimitsOf(cfg, p), sys.peers[p].relays, key, DestinationUnavailable),
                  Some(key.id), reach);
    }
  }

  lemma PlainTwin(cfg: Config, sys: System, answered: System, ack: Message, e: Event)
    requires Twin(sys, answered, ack) && ack.GenericAck?
    requires || e.RerouteBegins? || e.HandOff? || e.HopDropped? || e.Commit? || e.Leave? || e.CancelSend? || e.SignalArrives?
    ensures Twin(Step(cfg, sys, e), Step(cfg, answered, e), ack)
  {
    assert sys.net + {ack} + {} == sys.net + {ack};
  }

  lemma SubmitsTwin(sys: System, answered: System, ack: Message, p: PeerId, k: nat, submitted: bool)
    requires Twin(sys, answered, ack)
    ensures Twin(SubmitsStep(sys, p, k, submitted), SubmitsStep(answered, p, k, submitted), ack)
  {
    assert SubmitsStep(answered, p, k, submitted).net == SubmitsStep(sys, p, k, submitted).net + {ack};
  }

  lemma SendingTwin(cfg: Config, sys: System, answered: System, ack: Message, e: Event)
    requires Twin(sys, answered, ack) && ack.GenericAck? && (e.Resumes? || e.DestinationGone? || e.ReceiveStale?)
    ensures Twin(Step(cfg, sys, e), Step(cfg, answered, e), ack)
  {
    assert Step(cfg, answered, e).net == Step(cfg, sys, e).net + {ack};
  }

  // As long as nobody waits for its hop, the answer changes nothing.
  lemma StepTwin(cfg: Config, sys: System, answered: System, ack: Message, e: Event)
    requires Twin(sys, answered, ack) && ack.GenericAck? && (ack.to in sys.peers ==> ack.hop !in sys.peers[ack.to].hops)
    ensures Twin(Step(cfg, sys, e), Step(cfg, answered, e), ack)
  {
    if e.Originate? { OriginateTwin(cfg, sys, answered, ack, e); }
    else if e.Receive? { ReceiveTwin(cfg, sys, answered, ack, e.to, e.message, e.ready, e.reach); }
    else if e.AckArrives? { AckTwin(cfg, sys, answered, ack, e.to, e.message, e.reach); }
    else if e.HopTimesOut? { TimeoutTwin(cfg, sys, answered, ack, e.at, e.hop, e.reach); }
    else if e.OrderedHopSubmitted? || e.ForwardFails? { ForwardResultTwin(cfg, sys, answered, ack, e); }
    else if e.Submits? { SubmitsTwin(sys, answered, ack, e.source, e.pass, e.submitted); }
    else if e.Resumes? || e.DestinationGone? || e.ReceiveStale? { SendingTwin(cfg, sys, answered, ack, e); }
    else { PlainTwin(cfg, sys, answered, ack, e); }
  }

  lemma {:induction false} RunTwin(cfg: Config, sys: System, answered: System, m: Message, r: Relay, later: seq<Event>)
    requires Grounded(sys) && AllIdsUsed(sys) && m.Reliable? && Forgotten(sys, m, r)
    requires Twin(sys, answered, GenericAck(m.to, m.from, m.hop))
    ensures Forgotten(Run(cfg, sys, later), m, r)
    ensures Twin(Run(cfg, sys, later), Run(cfg, answered, later), GenericAck(m.to, m.from, m.hop))
  {
    if later != [] {
      var front, e := later[..|later| - 1], later[|later| - 1];
      RunTwin(cfg, sys, answered, m, r, front);
      RunIdsUsed(cfg, sys, front);
      RunStaysGrounded(cfg, sys, front);
      StepTwin(cfg, Run(cfg, sys, front), Run(cfg, answered, front), GenericAck(m.to, m.from, m.hop), e);
      StepKeepsForgotten(cfg, Run(cfg, sys, front), e, m, r);
    }
  }

  lemma ForgottenNeverMisreports(cfg: Config, sys: System, m: Message)
    requires Inv(sys) && Grounded(sys) && AllIdsUsed(sys) && Answerable(sys, m.to, m) && !Recoverable(sys, m) && !StrayHop(sys, m)
    ensures NeverMisreports(cfg, ReceiveStaleStep(sys, m.to, m), m.op)
  {
    var answered := ReceiveStaleStep(sys, m.to, m);
    var r := ForgottenIsQuiet(sys, m);
    AnswerIsTwin(sys, m);
    assert MessageGrounded(sys, m);
    SoundNeverMisreports(cfg, sys, m.op);
    forall later: seq<Event> | Plain(later) ensures !Misreports(cfg, answered, later, m.op) {
      TwinMisreports(cfg, sys, answered, m, r, later);
    }
  }

  lemma TwinMisreports(cfg: Config, sys: System, answered: System, m: Message, r: Relay, later: seq<Event>)
    requires Grounded(sys) && AllIdsUsed(sys) && m.Reliable? && Forgotten(sys, m, r)
    requires Twin(sys, answered, GenericAck(m.to, m.from, m.hop)) && !Misreports(cfg, sys, later, m.op)
    ensures !Misreports(cfg, answered, later, m.op)
  {
    RunTwin(cfg, sys, answered, m, r, later);
  }

  lemma AnswerIsTwin(sys: System, m: Message)
    requires Answerable(sys, m.to, m)
    ensures Twin(sys, ReceiveStaleStep(sys, m.to, m), GenericAck(m.to, m.from, m.hop))
  {
    assert sys.peers == sys.peers[m.to := sys.peers[m.to]];
  }

  // After any run whose answers met the condition, one more answer:
  // - never leads to a REMOTE_ACKNOWLEDGED of an operation that its destination did not
  //   accept, if it did accept it, or the former coordinator has given the hop up, or the
  //   hop can no longer complete the operation's handle;
  // - leads to one in some continuation, if none of this holds and the coordinator waits
  //   for the hop or can be brought back to it;
  // - never leads to one, if the coordinator has forgotten the hop and no other result can
  //   bring it back, now or after a member has sent another operation of the pair again.
  lemma AnswerIsSafeIff(cfg: Config, start: System, past: seq<Event>, d: PeerId, m: Message)
    requires Initial(start) && SafeRun(cfg, start, past) && Answerable(Run(cfg, start, past), d, m)
    ensures var sys := Run(cfg, start, past);
            var never := NeverMisreports(cfg, ReceiveStaleStep(sys, d, m), m.op);
            && (SafeAnswer(sys, m) ==> never)
            && (!SafeAnswer(sys, m) && Recoverable(sys, m) ==> !never)
            && (!Recoverable(sys, m) && !StrayHop(sys, m) ==> never)
  {
    var sys := Run(cfg, start, past);
    EveryRunShaped(cfg, start, past);
    EveryRunGrounded(cfg, start, past);
    assert AllIdsUsed(start);
    RunIdsUsed(cfg, start, past);
    AnswerIsSafeExactly(cfg, sys, m);
  }

  lemma AnswerIsSafeExactly(cfg: Config, sys: System, m: Message)
    requires Inv(sys) && Shaped(cfg, sys) && Grounded(sys) && AllIdsUsed(sys) && m.Reliable? && Answerable(sys, m.to, m)
    ensures var never := NeverMisreports(cfg, ReceiveStaleStep(sys, m.to, m), m.op);
            && (SafeAnswer(sys, m) ==> never)
            && (!SafeAnswer(sys, m) && Recoverable(sys, m) ==> !never)
            && (!Recoverable(sys, m) && !StrayHop(sys, m) ==> never)
  {
    if SafeAnswer(sys, m) { SafeAnswerNeverMisreports(cfg, sys, m.to, m); }
    else if Recoverable(sys, m) { UnsafeAnswerMisreports(cfg, sys, m); }
    if !Recoverable(sys, m) && !StrayHop(sys, m) { ForgottenNeverMisreports(cfg, sys, m); }
  }

  // ---------- a run that forgets a hop ----------

  // Authority is lost and regained, as in RegainedAuthorityGoesWrong but without an answer;
  // the hop of the first operation is still waited for. A second operation goes first this
  // time, the first queues behind it, and the hop of the second runs out of retries when
  // its session resumes.
  const LATER := Operation(1, 3, 1, ReliableAcked, Normal, [])
  const LATER_HOP := Reliable(2, 3, 3, LATER)

  const UNTIL_FORGOTTEN: seq<Event> := [
    Commit(2, 2, EVERYONE),
    Originate(1, 3, ReliableAcked, Normal, [], true),
    Submits(1, 1, true),
    Receive(2, Reliable(1, 2, 2, LATER), true),
    Receive(2, Reliable(1, 2, 0, OP), true),
    HopDropped(2, 3)]

  function Back(): System {
    Moved().(peers := Moved().peers[2 := Coordinator().(previous := Some(3), relays := [])])
  }

  function Caller(passes: seq<Pass>, hops: map<nat, Hop>): Peer {
    Fresh().(sends := MR.Sends(map[0 := OP, 1 := LATER], map[]), nextId := 2, handles := map[0 := Transmitting, 1 := Transmitting],
             passes := passes, hops := hops)
  }

  function CalledAgain(): System {
    Back().(peers := Back().peers[1 := Caller([SUBMITTED, Pass(2, [LATER], true)], FIRST_HOP)],
            issued := map[OP.Key() := OP, LATER.Key() := LATER])
  }

  function Resent(): System {
    CalledAgain().(
      peers := Back().peers[1 := Caller([SUBMITTED, SUBMITTED], FIRST_HOP[2 := Hop(LATER.Key(), 2, false)])],
      net := Back().net + {Reliable(1, 2, 2, LATER)}, bound := Back().bound[2 := Binding(LATER, false)], nextHop := 3)
  }

  // Peer 2 with these relays and waits, in authority again.
  function Regaining(relays: seq<Relay>, hops: map<nat, Hop>): Peer {
    Coordinator().(previous := Some(3), relays := relays, hops := hops)
  }

  const LATER_RELAY := Relay(LATER, 3, 0)
  const OLD_WAIT := map[1 := Hop(OP.Key(), 3, true)]

  lemma BackStep()
    ensures Step(CFG, Moved(), UNTIL_FORGOTTEN[0]) == Back()
  {
  }

  lemma CalledAgainStep()
    ensures Step(CFG, Back(), UNTIL_FORGOTTEN[1]) == CalledAgain()
  {
    var named := Named(Back(), 1, LATER);
    var q := named.peers[1];
    assert q.sends == MR.Sends(map[0 := OP], map[]);
    assert MR.Begin(q.sends, CFG.caps, ViewOf(1, q), LATER) == (Ok(Transmitting), MR.Sends(map[0 := OP, 1 := LATER], map[]));
    assert [SUBMITTED] + [Pass(2, [LATER], true)] == [SUBMITTED, Pass(2, [LATER], true)];
  }

  lemma ResentStep()
    ensures Step(CFG, CalledAgain(), UNTIL_FORGOTTEN[2]) == Resent()
  {
    assert [LATER][1..] == [];
    assert [SUBMITTED, Pass(2, [LATER], true)][1 := SUBMITTED] == [SUBMITTED, SUBMITTED];
  }

  // What the rest needs of a state.
  ghost predicate At(sys: System, relays: seq<Relay>, hops: map<nat, Hop>, nextHop: nat) {
    && sys.peers.Keys == EVERYONE && sys.peers[1] == Resent().peers[1] && sys.peers[2] == Regaining(relays, hops)
    && sys.peers[3] == Resent().peers[3] && sys.nextHop == nextHop && sys.issued == Resent().issued
    && Reliable(1, 2, 0, OP) in sys.net
  }

  lemma LaterAdmitted()
    ensures var sys := Step(CFG, Resent(), UNTIL_FORGOTTEN[3]);
            && At(sys, [LATER_RELAY], OLD_WAIT[3 := Hop(LATER.Key(), 3, true)], 4)
            && LATER_HOP in sys.net && 3 in sys.bound && sys.bound[3] == Binding(LATER, true)
  {
    LaterIsFirst();
    LaterApplied(Resent());
  }

  lemma LaterIsFirst()
    ensures Admitted(LimitsOf(CFG, 2), [], LATER_RELAY, 2, EVERYONE, true)
            == Outcome(Ok(Actions(sourceHopAck := Some(2), forward := Some(LATER_RELAY))), [LATER_RELAY])
  {
    assert Find([], LATER.Key()) == None && OfPair([], 1, 3) == [] && [] + [LATER_RELAY] == [LATER_RELAY];
  }

  lemma LaterApplied(sys: System)
    requires sys == Resent()
    ensures Step(CFG, sys, UNTIL_FORGOTTEN[3])
            == Apply(Bind(sys, LATER, true), 2, 1,
                     Outcome(Ok(Actions(sourceHopAck := Some(2), forward := Some(LATER_RELAY))), [LATER_RELAY]), None, Done)
  {
    LaterIsFirst();
  }

  lemma OldQueues()
    ensures Admitted(LimitsOf(CFG, 2), [LATER_RELAY], Relay(OP, 4, 0), 0, EVERYONE, true)
            == Outcome(Ok(Actions(sourceHopAck := Some(0))), [LATER_RELAY, Relay(OP, 4, 0)])
  {
    var held := [LATER_RELAY];
    assert held[..0] == [];
    assert Find(held, OP.Key()) == None && OfPair(held, 1, 3) == held;
    assert Bytes(held, 3) == 0 && Messages(held, 3) == 1;
    assert held + [Relay(OP, 4, 0)] == [LATER_RELAY, Relay(OP, 4, 0)];
  }

  lemma OldAdmitted(sys: System)
    requires At(sys, [LATER_RELAY], OLD_WAIT[3 := Hop(LATER.Key(), 3, true)], 4)
    requires LATER_HOP in sys.net && 3 in sys.bound && sys.bound[3] == Binding(LATER, true)
    ensures var next := Step(CFG, sys, UNTIL_FORGOTTEN[4]);
            && At(next, [LATER_RELAY, Relay(OP, 4, 0)], OLD_WAIT[3 := Hop(LATER.Key(), 3, true)], 5)
            && LATER_HOP in next.net && 3 in next.bound && next.bound[3] == Binding(LATER, true)
  {
    OldQueues();
    assert Step(CFG, sys, UNTIL_FORGOTTEN[4])
           == Apply(Bind(sys, OP, true), 2, 1, Outcome(Ok(Actions(sourceHopAck := Some(0))), [LATER_RELAY, Relay(OP, 4, 0)]), None, Done);
  }

  lemma LaterForgotten(sys: System)
    requires At(sys, [LATER_RELAY, Relay(OP, 4, 0)], OLD_WAIT[3 := Hop(LATER.Key(), 3, true)], 5)
    requires LATER_HOP in sys.net && 3 in sys.bound && sys.bound[3] == Binding(LATER, true)
    ensures var end := Step(CFG, sys, UNTIL_FORGOTTEN[5]);
            Answerable(end, 3, LATER_HOP) && !SafeAnswer(end, LATER_HOP) && HopForgotten(end, LATER_HOP) && Mate(end, LATER_HOP, 1)
  {
    LaterDropped(sys);
    ForgottenState(Step(CFG, sys, UNTIL_FORGOTTEN[5]));
  }

  lemma LaterDropped(sys: System)
    requires At(sys, [LATER_RELAY, Relay(OP, 4, 0)], OLD_WAIT[3 := Hop(LATER.Key(), 3, true)], 5)
    ensures var end := Step(CFG, sys, UNTIL_FORGOTTEN[5]);
            At(end, [LATER_RELAY, Relay(OP, 4, 0)], OLD_WAIT, 5) && end.net == sys.net && end.bound == sys.bound
  {
    assert WithoutHop(OLD_WAIT[3 := Hop(LATER.Key(), 3, true)], 3) == OLD_WAIT;
  }

  lemma ForgottenState(end: System)
    requires At(end, [LATER_RELAY, Relay(OP, 4, 0)], OLD_WAIT, 5)
    requires LATER_HOP in end.net && 3 in end.bound && end.bound[3] == Binding(LATER, true)
    ensures Answerable(end, 3, LATER_HOP) && !SafeAnswer(end, LATER_HOP) && HopForgotten(end, LATER_HOP) && Mate(end, LATER_HOP, 1)
  {
    var relays := [LATER_RELAY, Relay(OP, 4, 0)];
    assert relays[..1] == [LATER_RELAY];
    assert Find(relays, OP.Key()) == Some(Relay(OP, 4, 0));
    assert LATER_RELAY in relays;
  }

  lemma SixSteps(sys: System, es: seq<Event>)
    requires |es| == 6
    ensures Run(CFG, sys, es) == Step(CFG, Step(CFG, Step(CFG, Step(CFG, Step(CFG, Step(CFG, sys, es[0]), es[1]), es[2]), es[3]), es[4]), es[5])
  {
    RunTwo(CFG, sys, es[0], es[1]);
    RunSnoc(CFG, sys, [es[0], es[1]], es[2]);
    RunSnoc(CFG, sys, [es[0], es[1]] + [es[2]], es[3]);
    RunSnoc(CFG, sys, [es[0], es[1]] + [es[2]] + [es[3]], es[4]);
    RunSnoc(CFG, sys, [es[0], es[1]] + [es[2]] + [es[3]] + [es[4]], es[5]);
    assert es == [es[0], es[1]] + [es[2]] + [es[3]] + [es[4]] + [es[5]];
  }

  // The state of ForgottenHopGoesWrong is reached by a run without any stale answer.
  lemma ForgottenHopReached()
    ensures Initial(Beginning())
    ensures var events := UNTIL_REGAINED[..5] + UNTIL_FORGOTTEN;
            var end := Run(CFG, Beginning(), events);
            && (forall i :: 0 <= i < |events| ==> !events[i].ReceiveStale?)
            && Answerable(end, 3, LATER_HOP) && !SafeAnswer(end, LATER_HOP) && HopForgotten(end, LATER_HOP) && Mate(end, LATER_HOP, 1)
  {
    RunUntilAnswer();
    RunConcat(CFG, Beginning(), UNTIL_REGAINED[..5], UNTIL_FORGOTTEN);
    ForgottenFromMoved();
  }

  lemma ForgottenFromMoved()
    ensures var end := Run(CFG, Moved(), UNTIL_FORGOTTEN);
            Answerable(end, 3, LATER_HOP) && !SafeAnswer(end, LATER_HOP) && HopForgotten(end, LATER_HOP) && Mate(end, LATER_HOP, 1)
  {
    var admitted := Step(CFG, Resent(), UNTIL_FORGOTTEN[3]);
    FromMoved();
    LaterAdmitted();
    OldAdmitted(admitted);
    LaterForgotten(Step(CFG, admitted, UNTIL_FORGOTTEN[4]));
  }

  lemma FromMoved()
    ensures Run(CFG, Moved(), UNTIL_FORGOTTEN)
            == Step(CFG, Step(CFG, Step(CFG, Resent(), UNTIL_FORGOTTEN[3]), UNTIL_FORGOTTEN[4]), UNTIL_FORGOTTEN[5])
  {
    SixSteps(Moved(), UNTIL_FORGOTTEN);
    BackStep();
    CalledAgainStep();
    ResentStep();
  }
}
