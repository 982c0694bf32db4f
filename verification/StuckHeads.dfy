/**
 When the oldest relay of a pair keeps the others waiting: a head that no result can reach
 any more stays until its destination leaves or the coordinator loses its authority, and
 nothing of its pair is sent meanwhile.
 */
module StuckHeads {
  import opened Types
  import opened RelayTable
  import opened RelayController
  import RR = RelayRuns
  import opened RoutedDelivery
  import opened AckSoundness
  import opened RoutedGuarantees
  import opened HandleLaws
  import opened Provenance

  predicate OfSamePair(sys: System, key: MessageKey, r: Relay) {
    key in sys.issued && key.source == r.op.source && sys.issued[key].destination == r.op.destination
  }

  // A result of this wait, for another operation, could move the pair of `r`: now, or once
  // a member has sent that operation again. A coordinator's own operations come only once.
  predicate Concerns(sys: System, q: Peer, c: PeerId, hop: Hop, r: Relay) {
    hop.finalHop && hop.key != r.Key() && OfSamePair(sys, hop.key, r) && (r.op.source == c ==> Find(q.relays, hop.key).Some?)
  }

  // An acknowledged head of its pair that no result of another operation can move.
  ghost predicate QuietHead(sys: System, c: PeerId, r: Relay) {
    && c in sys.peers && r.op.mode == ReliableAcked
    && (var q := sys.peers[c];
        && q.coordinator == c && r in q.relays && IsHead(q.relays, r)
        && forall h :: h in q.hops ==> !Concerns(sys, q, c, q.hops[h], r))
  }

  // Nor is its own result waited for.
  ghost predicate IdleHead(sys: System, c: PeerId, r: Relay) {
    QuietHead(sys, c, r) && forall h :: h in sys.peers[c].hops ==> !WaitsFor(sys.peers[c].hops[h], r.Key())
  }

  // No final hop of the pair that was known before is newly sent.
  ghost predicate NothingSent(sys: System, sys': System, c: PeerId, r: Relay) {
    forall x: Relay :: x.Between(r.op.source, r.op.destination) && x.hop < sys.nextHop && FinalHop(c, x) in sys'.net ==>
      FinalHop(c, x) in sys.net
  }

  ghost predicate StaysQuiet(sys: System, sys': System, c: PeerId, r: Relay) {
    && QuietHead(sys', c, r) && sys.nextHop <= sys'.nextHop && NothingSent(sys, sys', c, r)
    && c in sys.peers && (r.hop in sys'.peers[c].failing ==> r.hop in sys.peers[c].failing)
    && (forall h :: h in sys'.peers[c].hops && WaitsFor(sys'.peers[c].hops[h], r.Key()) ==>
          h in sys.peers[c].hops && sys.peers[c].hops[h] == sys'.peers[c].hops[h])
    && (r.hop in sys'.peers[c].hops ==> r.hop in sys.peers[c].hops)
  }

  // The coordinator loses its authority, or the destination leaves.
  predicate Ends(e: Event, c: PeerId, d: PeerId) {
    (e.Commit? && e.at == c && e.coordinator != c) || (e.DestinationGone? && e.at == c && e.destination == d)
  }

  // The event brings the result of the head itself.
  predicate Touches(sys: System, e: Event, c: PeerId, r: Relay)
    requires c in sys.peers
  {
    || FailsHead(e, c, r)
    || (e.AckArrives? && e.to == c && e.message.GenericAck? && EndsWait(sys.peers[c], e.message.hop, r))
    || (e.HopTimesOut? && e.at == c && EndsWait(sys.peers[c], e.hop, r))
  }

  predicate EndsWait(q: Peer, h: nat, r: Relay) { h in q.hops && WaitsFor(q.hops[h], r.Key()) }

  predicate FailsHead(e: Event, c: PeerId, r: Relay) { e.ForwardFails? && e.at == c && e.key == r.Key() }

  // ---------- steps that leave the table alone ----------

  // The issued operations and the coordinator's table, authority and waits stay.
  ghost predicate SameTable(sys: System, sys': System, c: PeerId) {
    && c in sys.peers && c in sys'.peers && sys.nextHop <= sys'.nextHop
    && (forall key :: key in sys.issued ==> key in sys'.issued && sys'.issued[key] == sys.issued[key])
    && (var (q, q') := (sys.peers[c], sys'.peers[c]);
        && q'.coordinator == q.coordinator && q'.relays == q.relays && q'.failing == q.failing
        && (forall h :: h in q'.hops && q'.hops[h].finalHop ==> h in q.hops && q'.hops[h] == q.hops[h])
        && (forall h :: h in q'.hops ==> h in q.hops || h >= sys.nextHop))
    && (forall m :: m in sys'.net && m.Reliable? && m.from == c ==> m in sys.net || m.hop >= sys.nextHop)
  }

  lemma SameTableStaysQuiet(sys: System, sys': System, c: PeerId, r: Relay)
    requires Grounded(sys) && QuietHead(sys, c, r) && SameTable(sys, sys', c)
    ensures StaysQuiet(sys, sys', c, r)
  {
    var q, q' := sys.peers[c], sys'.peers[c];
    assert PeerGrounded(sys, c, q);
    forall h | h in q'.hops ensures !Concerns(sys', q', c, q'.hops[h], r) {
      if q'.hops[h].finalHop { assert q.hops[h].key in sys.issued && !Concerns(sys, q, c, q.hops[h], r); }
    }
  }

  // ---------- results of other pairs ----------

  lemma ApplySends(sys: System, c: PeerId, from: PeerId, outcome: Outcome, local: Option<GroupMessageId>, reach: Reach, m: Message)
    requires c in sys.peers && m.Reliable? && m in Apply(sys, c, from, outcome, local, reach).net && m !in sys.net
    ensures outcome.result.Ok? && outcome.result.value.forward.Some? && m == FinalHop(c, outcome.result.value.forward.value)
  {
  }

  // Waits of the coordinator after an outcome: the old ones, and one for the forward.
  lemma ApplyWaits(sys: System, c: PeerId, from: PeerId, outcome: Outcome, local: Option<GroupMessageId>, reach: Reach)
    requires c in sys.peers
    ensures var sys' := Apply(sys, c, from, outcome, local, reach);
            && c in sys'.peers && sys'.issued == sys.issued && sys'.nextHop == sys.nextHop
            && (var (q, q') := (sys.peers[c], sys'.peers[c]);
                && q'.coordinator == q.coordinator && q'.relays == outcome.relays
                && (forall h :: h in q'.hops ==> (h in q.hops && q'.hops[h] == q.hops[h]) || WaitsForForward(outcome, h, q'.hops[h]))
                && (forall h :: h in q'.failing ==> h in q.failing || FailsForward(outcome, h)))
  {
    var q1 := Releasing(sys.peers[c], outcome, reach);
    if outcome.result.Ok? {
      PerformedWaits(q1, Cut(outcome.result.value, reach), local);
    }
  }

  lemma PerformedWaits(q: Peer, a: Actions, local: Option<GroupMessageId>)
    ensures var q' := Performed(q, a, local);
            && q'.coordinator == q.coordinator && q'.relays == q.relays && q'.failing == q.failing
            && (forall h :: h in q'.hops ==> (h in q.hops && q'.hops[h] == q.hops[h]) || (a.forward.Some? && h == a.forward.value.hop && q'.hops[h].key == a.forward.value.Key()))
  {
  }

  predicate WaitsForForward(outcome: Outcome, h: nat, hop: Hop) {
    && outcome.result.Ok? && outcome.result.value.forward.Some?
    && h == outcome.result.value.forward.value.hop && hop.key == outcome.result.value.forward.value.Key()
  }

  predicate FailsForward(outcome: Outcome, hop: nat) {
    outcome.result.Ok? && outcome.result.value.forward.Some? && hop == outcome.result.value.forward.value.hop
  }

  // The outcome leaves the pair of `r` alone.
  ghost predicate Apart(sys: System, c: PeerId, outcome: Outcome, r: Relay) {
    && r in outcome.relays && IsHead(outcome.relays, r)
    && (outcome.result.Ok? && outcome.result.value.forward.Some? ==>
          var next := outcome.result.value.forward.value;
          !next.Between(r.op.source, r.op.destination) && Known(sys, next.op) && next.hop != r.hop && next.Key() != r.Key())
  }

  lemma ApartStaysQuiet(sys: System, c: PeerId, from: PeerId, outcome: Outcome, local: Option<GroupMessageId>, reach: Reach, r: Relay)
    requires QuietHead(sys, c, r) && Apart(sys, c, outcome, r)
    requires forall h :: h in sys.peers[c].hops ==> !Concerns(sys, sys.peers[c].(relays := outcome.relays), c, sys.peers[c].hops[h], r)
    ensures StaysQuiet(sys, Apply(sys, c, from, outcome, local, reach), c, r)
  {
    var sys' := Apply(sys, c, from, outcome, local, reach);
    ApplyWaits(sys, c, from, outcome, local, reach);
    forall h | h in sys'.peers[c].hops ensures !Concerns(sys', sys'.peers[c], c, sys'.peers[c].hops[h], r) {
      if h in sys.peers[c].hops && sys'.peers[c].hops[h] == sys.peers[c].hops[h] {
        assert !Concerns(sys, sys.peers[c].(relays := outcome.relays), c, sys.peers[c].hops[h], r);
      }
    }
    forall x: Relay | x.Between(r.op.source, r.op.destination) && FinalHop(c, x) in sys'.net ensures FinalHop(c, x) in sys.net {
      if FinalHop(c, x) !in sys.net { ApplySends(sys, c, from, outcome, local, reach, FinalHop(c, x)); }
    }
  }

  // A result for a relay of another pair, or for none.
  lemma ResultStaysQuiet(cfg: Config, sys: System, c: PeerId, r: Relay, key: MessageKey, outcome: Outcome,
                        local: Option<GroupMessageId>, reach: Reach)
    requires Grounded(sys) && QuietHead(sys, c, r) && ResultFor(cfg, c, sys.peers[c].relays, key, outcome)
    requires var found := Find(sys.peers[c].relays, key); found.Some? ==> !found.value.Between(r.op.source, r.op.destination)
    ensures StaysQuiet(sys, Apply(sys, c, c, outcome, local, reach), c, r)
  {
    var q := sys.peers[c];
    ResultApart(cfg, sys, c, r, key, outcome);
    WithoutMembers(q.relays, key);
    forall h | h in q.hops ensures !Concerns(sys, q.(relays := outcome.relays), c, q.hops[h], r) {
      assert !Concerns(sys, q, c, q.hops[h], r);
      ResultIs(cfg, c, q.relays, key, outcome);
      FewerFound(q.relays, key, q.hops[h].key);
    }
    ApartStaysQuiet(sys, c, c, outcome, local, reach, r);
  }

  lemma FewerFound(relays: seq<Relay>, gone: MessageKey, key: MessageKey)
    ensures Find(Without(relays, gone), key).Some? ==> Find(relays, key).Some?
  {
    WithoutMembers(relays, gone);
    if Find(Without(relays, gone), key).Some? {
      var x := Find(Without(relays, gone), key).value;
      var i :| 0 <= i < |relays| && relays[i] == x;
    }
  }

  lemma ResultApart(cfg: Config, sys: System, c: PeerId, r: Relay, key: MessageKey, outcome: Outcome)
    requires Grounded(sys) && QuietHead(sys, c, r) && ResultFor(cfg, c, sys.peers[c].relays, key, outcome)
    requires var found := Find(sys.peers[c].relays, key); found.Some? ==> !found.value.Between(r.op.source, r.op.destination)
    ensures Apart(sys, c, outcome, r)
  {
    var q := sys.peers[c];
    assert PeerGrounded(sys, c, q);
    ResultIs(cfg, c, q.relays, key, outcome);
    if Find(q.relays, key).Some? {
      WithoutMembers(q.relays, key);
      WithoutKeepsHead(q.relays, key, r);
      if outcome.result.Ok? && outcome.result.value.forward.Some? {
        HeadMember(Without(q.relays, key), key.source, Find(q.relays, key).value.op.destination);
      }
    }
  }

  // The hop whose result arrives belongs to another pair, or to no relay.
  lemma WaitApart(sys: System, c: PeerId, r: Relay, h: nat)
    requires Grounded(sys) && QuietHead(sys, c, r) && h in sys.peers[c].hops && sys.peers[c].hops[h].finalHop
    requires sys.peers[c].hops[h].key != r.Key()
    ensures var found := Find(sys.peers[c].relays, sys.peers[c].hops[h].key);
            found.Some? ==> !found.value.Between(r.op.source, r.op.destination)
  {
    assert PeerGrounded(sys, c, sys.peers[c]);
    assert !Concerns(sys, sys.peers[c], c, sys.peers[c].hops[h], r);
  }

  lemma WithoutHopStaysQuiet(sys: System, c: PeerId, r: Relay, h: nat)
    requires Grounded(sys) && QuietHead(sys, c, r)
    ensures var rest := With(sys, c, sys.peers[c].(hops := WithoutHop(sys.peers[c].hops, h)), {});
            Grounded(rest) && QuietHead(rest, c, r)
  {
    var rest := With(sys, c, sys.peers[c].(hops := WithoutHop(sys.peers[c].hops, h)), {});
    FewerHopsStaysGrounded(sys, c, WithoutHop(sys.peers[c].hops, h));
    SameTableStaysQuiet(sys, rest, c, r);
  }

  lemma AckStaysQuiet(cfg: Config, sys: System, c: PeerId, m: Message, reach: Reach, r: Relay)
    requires Grounded(sys) && QuietHead(sys, c, r) && AckArrivesStep(cfg, sys, c, m, reach) != sys && !EndsWait(sys.peers[c], m.hop, r)
    ensures StaysQuiet(sys, AckArrivesStep(cfg, sys, c, m, reach), c, r)
  {
    var q := sys.peers[c];
    var rest := With(sys, c, q.(hops := WithoutHop(q.hops, m.hop)), {});
    WithoutHopStaysQuiet(sys, c, r, m.hop);
    SameTableStaysQuiet(sys, rest, c, r);
    if q.hops[m.hop].finalHop {
      var key := q.hops[m.hop].key;
      WaitApart(sys, c, r, m.hop);
      ResultStaysQuiet(cfg, rest, c, r, key, Acknowledged(LimitsOf(cfg, c), q.relays, key), Some(key.id), reach);
    }
  }

  lemma TimeoutStaysQuiet(cfg: Config, sys: System, c: PeerId, hop: nat, reach: Reach, r: Relay)
    requires Grounded(sys) && QuietHead(sys, c, r) && hop in sys.peers[c].hops && !EndsWait(sys.peers[c], hop, r)
    ensures StaysQuiet(sys, HopTimesOutStep(cfg, sys, c, hop, reach), c, r)
  {
    var q := sys.peers[c];
    var key := q.hops[hop].key;
    var rest := q.(hops := WithoutHop(q.hops, hop));
    if q.hops[hop].finalHop {
      SameTableStaysQuiet(sys, With(sys, c, rest, {}), c, r);
      WithoutHopStaysQuiet(sys, c, r, hop);
      WaitApart(sys, c, r, hop);
      ResultStaysQuiet(cfg, With(sys, c, rest, {}), c, r, key, FinalHopFailure(LimitsOf(cfg, c), q.relays, key, DestinationAckTimeout),
                      Some(key.id), reach);
    } else {
      SourceTimeoutTable(cfg, sys, c, hop, reach);
      SameTableStaysQuiet(sys, HopTimesOutStep(cfg, sys, c, hop, reach), c, r);
    }
  }

  lemma SourceTimeoutTable(cfg: Config, sys: System, c: PeerId, hop: nat, reach: Reach)
    requires c in sys.peers && hop in sys.peers[c].hops && !sys.peers[c].hops[hop].finalHop
    ensures SameTable(sys, HopTimesOutStep(cfg, sys, c, hop, reach), c)
  {
    var q := sys.peers[c];
    SourceTimedOutIsSame(q.(hops := WithoutHop(q.hops, hop)), q.hops[hop].key.id);
  }

  // An ordered relay whose final hop is out, and a forward that fails, are heads.
  lemma ForwardResultStaysQuiet(cfg: Config, sys: System, e: Event, c: PeerId, r: Relay)
    requires Grounded(sys) && QuietHead(sys, c, r) && (e.OrderedHopSubmitted? || e.ForwardFails?) && e.at == c && !FailsHead(e, c, r)
    requires Step(cfg, sys, e) != sys
    ensures StaysQuiet(sys, Step(cfg, sys, e), c, r)
  {
    BegunIsHead(sys, c, e.key);
    if e.ForwardFails? { FailureStaysQuiet(cfg, sys, c, r, e.key, e.reach); } else { SubmittedStaysQuiet(cfg, sys, c, r, e.key, e.reach); }
  }

  lemma SubmittedStaysQuiet(cfg: Config, sys: System, c: PeerId, r: Relay, key: MessageKey, reach: Reach)
    requires Grounded(sys) && QuietHead(sys, c, r) && Find(sys.peers[c].relays, key).Some?
    requires IsHead(sys.peers[c].relays, Find(sys.peers[c].relays, key).value)
    requires OrderedHopSubmittedStep(cfg, sys, c, key, reach) != sys
    ensures StaysQuiet(sys, OrderedHopSubmittedStep(cfg, sys, c, key, reach), c, r)
  {
    ResultStaysQuiet(cfg, sys, c, r, key, Submitted(LimitsOf(cfg, c), sys.peers[c].relays, key), None, reach);
  }

  lemma FailureStaysQuiet(cfg: Config, sys: System, c: PeerId, r: Relay, key: MessageKey, reach: Reach)
    requires Grounded(sys) && QuietHead(sys, c, r) && Find(sys.peers[c].relays, key).Some? && key != r.Key()
    requires IsHead(sys.peers[c].relays, Find(sys.peers[c].relays, key).value)
    requires ForwardFailsStep(cfg, sys, c, key, reach) != sys
    ensures StaysQuiet(sys, ForwardFailsStep(cfg, sys, c, key, reach), c, r)
  {
    ResultStaysQuiet(cfg, sys, c, r, key, FinalHopFailure(LimitsOf(cfg, c), sys.peers[c].relays, key, DestinationUnavailable), Some(key.id), reach);
  }

  lemma BegunIsHead(sys: System, c: PeerId, key: MessageKey)
    requires Grounded(sys) && c in sys.peers && Find(sys.peers[c].relays, key).Some?
    requires var x := Find(sys.peers[c].relays, key).value; FinalHop(c, x) in sys.net || x.hop in sys.peers[c].failing
    ensures IsHead(sys.peers[c].relays, Find(sys.peers[c].relays, key).value)
  {
    assert PeerGrounded(sys, c, sys.peers[c]);
  }

  // ---------- admissions ----------

  lemma AdmissionStaysQuiet(cfg: Config, sys: System, c: PeerId, from: PeerId, op: Operation, sourceHop: nat, ready: bool,
                           local: Option<GroupMessageId>, reach: Reach, r: Relay)
    requires Grounded(sys) && QuietHead(sys, c, r) && Known(sys, op)
    requires op.source == c ==> forall h :: h in sys.peers[c].hops ==> sys.peers[c].hops[h].key != op.Key()
    ensures StaysQuiet(sys, Apply(Bind(sys, op, true), c, from, AdmittedOutcome(cfg, sys, c, op, sourceHop, ready), local, reach), c, r)
  {
    var bound, q := Bind(sys, op, true), sys.peers[c];
    var outcome := AdmittedOutcome(cfg, sys, c, op, sourceHop, ready);
    AdmissionApart(cfg, sys, c, op, sourceHop, ready, r);
    forall h | h in q.hops ensures !Concerns(bound, q.(relays := outcome.relays), c, q.hops[h], r) {
      assert !Concerns(sys, q, c, q.hops[h], r);
      if q.hops[h].key != op.Key() { AdmittedFound(cfg, sys, c, op, sourceHop, ready, q.hops[h].key); }
    }
    assert QuietHead(bound, c, r) by { forall h | h in q.hops ensures !Concerns(bound, q, c, q.hops[h], r) { assert !Concerns(sys, q, c, q.hops[h], r); } }
    ApartStaysQuiet(bound, c, from, outcome, local, reach, r);
  }

  lemma AdmittedFound(cfg: Config, sys: System, c: PeerId, op: Operation, sourceHop: nat, ready: bool, key: MessageKey)
    requires c in sys.peers && key != op.Key()
    ensures Find(AdmittedOutcome(cfg, sys, c, op, sourceHop, ready).relays, key).Some? ==> Find(sys.peers[c].relays, key).Some?
  {
    AdmissionIs(cfg, sys, c, op, sourceHop, ready);
    var relays := sys.peers[c].relays;
    var x := Relay(op, sys.nextHop, |op.bytes|);
    assert (relays + [x])[..|relays|] == relays;
  }

  lemma AdmissionApart(cfg: Config, sys: System, c: PeerId, op: Operation, sourceHop: nat, ready: bool, r: Relay)
    requires Grounded(sys) && QuietHead(sys, c, r) && Known(sys, op)
    ensures Apart(Bind(sys, op, true), c, AdmittedOutcome(cfg, sys, c, op, sourceHop, ready), r)
  {
    var relays := sys.peers[c].relays;
    var x := Relay(op, sys.nextHop, |op.bytes|);
    assert PeerGrounded(sys, c, sys.peers[c]);
    AdmissionIs(cfg, sys, c, op, sourceHop, ready);
    PairAppended(relays, x, r.op.source, r.op.destination);
    OfPairMembers(relays, r.op.source, r.op.destination);
  }

  lemma ReceiveStaysQuiet(cfg: Config, sys: System, c: PeerId, m: Message, ready: bool, reach: Reach, r: Relay)
    requires Grounded(sys) && QuietHead(sys, c, r) && ReceiveStep(cfg, sys, c, m, ready, reach) != sys
    ensures StaysQuiet(sys, ReceiveStep(cfg, sys, c, m, ready, reach), c, r)
  {
    assert MessageGrounded(sys, m);
    AdmissionStaysQuiet(cfg, sys, c, m.from, m.op, m.hop, ready, None, reach, r);
  }

  lemma NamedStaysQuiet(sys: System, c: PeerId, op: Operation, r: Relay)
    requires Grounded(sys) && QuietHead(sys, c, r) && op.source == c && op.id == sys.peers[c].nextId
    ensures QuietHead(Named(sys, c, op), c, r)
  {
    assert PeerGrounded(sys, c, sys.peers[c]);
    NamedIsFresh(sys, c, op);
    SameTableStaysQuiet(sys, Named(sys, c, op), c, r);
  }

  lemma OwnOriginStaysQuiet(cfg: Config, sys: System, c: PeerId, op: Operation, ready: bool, reach: Reach, r: Relay)
    requires Grounded(sys) && QuietHead(sys, c, r) && Known(sys, op)
    requires forall h :: h in sys.peers[c].hops ==> sys.peers[c].hops[h].key != op.Key()
    ensures StaysQuiet(sys, OriginateAsCoordinator(cfg, sys, c, op, ready, reach), c, r)
  {
    var outcome := OwnOutcome(cfg, sys, c, op, ready);
    var applied := Apply(Bind(sys, op, true), c, c, outcome, Some(op.id), reach);
    AdmissionStaysQuiet(cfg, sys, c, c, op, 0, ready, Some(op.id), reach, r);
    if OriginFails(outcome, reach) { CompletedStaysQuiet(sys, applied, c, op.id, r); }
  }

  lemma CompletedStaysQuiet(sys: System, applied: System, c: PeerId, id: GroupMessageId, r: Relay)
    requires StaysQuiet(sys, applied, c, r)
    ensures StaysQuiet(sys, With(applied, c, Complete(applied.peers[c], id, Failed), {}), c, r)
  {
    var q, q' := applied.peers[c], Complete(applied.peers[c], id, Failed);
    forall h | h in q'.hops ensures !Concerns(With(applied, c, q', {}), q', c, q'.hops[h], r) { assert !Concerns(applied, q, c, q.hops[h], r); }
  }

  lemma OriginateStaysQuiet(cfg: Config, sys: System, e: Event, c: PeerId, r: Relay)
    requires Grounded(sys) && QuietHead(sys, c, r) && e.Originate? && e.source == c && Step(cfg, sys, e) != sys
    ensures StaysQuiet(sys, Step(cfg, sys, e), c, r)
  {
    var op := Operation(c, e.destination, sys.peers[c].nextId, e.mode, e.priority, e.bytes);
    NamedStaysGrounded(sys, c, op);
    NamedStaysQuiet(sys, c, op, r);
    OwnOriginStaysQuiet(cfg, Named(sys, c, op), c, op, e.ready, e.reach, r);
  }

  // ---------- the other steps ----------

  lemma ResumesStaysQuiet(sys: System, c: PeerId, key: MessageKey, r: Relay)
    requires Grounded(sys) && QuietHead(sys, c, r) && ResumesStep(sys, c, key) != sys
    ensures StaysQuiet(sys, ResumesStep(sys, c, key), c, r)
  {
    var sys' := ResumesStep(sys, c, key);
    var q, x := sys.peers[c], Find(sys.peers[c].relays, key).value;
    forall h | h in q.hops ensures !Concerns(sys', q, c, q.hops[h], r) { assert !Concerns(sys, q, c, q.hops[h], r); }
    assert !x.Between(r.op.source, r.op.destination);
  }

  lemma DestinationGoneStaysQuiet(sys: System, c: PeerId, d: PeerId, status: RelayStatus, r: Relay)
    requires Grounded(sys) && QuietHead(sys, c, r) && d != r.op.destination
    ensures StaysQuiet(sys, DestinationGoneStep(sys, c, d, status), c, r)
  {
    var sys' := DestinationGoneStep(sys, c, d, status);
    var q, q' := sys.peers[c], sys'.peers[c];
    RR.OutsideMembers(q.relays, OnlyTo(d));
    RR.OutsideOfPair(q.relays, OnlyTo(d), r.op.source, r.op.destination);
    forall h | h in q'.hops ensures !Concerns(sys', q', c, q'.hops[h], r) {
      assert !Concerns(sys, q, c, q.hops[h], r);
      if Find(q'.relays, q.hops[h].key).Some? { FoundMember(q.relays, Find(q'.relays, q.hops[h].key).value); }
    }
  }

  lemma FoundMember(relays: seq<Relay>, x: Relay)
    requires x in relays
    ensures Find(relays, x.Key()).Some?
  {
  }

  lemma TableStays(cfg: Config, sys: System, e: Event, c: PeerId)
    requires c in sys.peers && Where(e) == c && sys.peers[c].coordinator == c
    requires e.ReceiveStale? || e.HandOff? || e.HopDropped? || e.Leave? || e.RerouteBegins? || (e.Commit? && e.coordinator == c)
    ensures SameTable(sys, Step(cfg, sys, e), c)
  {
    match e
    case ReceiveStale(_, m) =>
    case HandOff(_) =>
    case HopDropped(_, hop) =>
    case Leave(_) =>
    case RerouteBegins(_, _, _) =>
    case Commit(_, _, _) =>
  }

  lemma SourceTableStays(cfg: Config, sys: System, e: Event, c: PeerId)
    requires c in sys.peers && Where(e) == c && sys.peers[c].coordinator == c && (e.SignalArrives? || e.CancelSend?)
    ensures SameTable(sys, Step(cfg, sys, e), c)
  {
    match e
    case SignalArrives(_, m, reach) => SignalIsSame(sys, c, m, reach);
    case CancelSend(_, _, _) =>
  }

  lemma SubmitsTableStays(sys: System, c: PeerId, k: nat, submitted: bool)
    requires c in sys.peers && Grounded(sys)
    ensures SameTable(sys, SubmitsStep(sys, c, k, submitted), c)
  {
    if !submitted && k < |sys.peers[c].passes| && sys.peers[c].passes[k].rest != [] {
      assert Abandoned(sys.peers[c], k).hops == sys.peers[c].hops;
    }
  }

  // Steps of other peers.
  lemma ElsewhereTableStays(cfg: Config, sys: System, e: Event, c: PeerId)
    requires Grounded(sys) && AllIdsUsed(sys) && c in sys.peers && Where(e) != c
    ensures SameTable(sys, Step(cfg, sys, e), c)
  {
    Elsewhere(cfg, sys, e, c);
    IssuedKept(cfg, sys, e);
    forall m | m in Step(cfg, sys, e).net && m.Reliable? && m !in sys.net ensures m.from == Where(e) { SentBySelf(cfg, sys, e, m); }
  }

  lemma IssuedKept(cfg: Config, sys: System, e: Event)
    requires Grounded(sys)
    ensures sys.nextHop <= Step(cfg, sys, e).nextHop
    ensures forall key :: key in sys.issued ==> key in Step(cfg, sys, e).issued && Step(cfg, sys, e).issued[key] == sys.issued[key]
  {
    if e.Originate? {
      OriginateKeeps(cfg, sys, e);
    } else {
      OnlyOriginateIssues(cfg, sys, e);
      OthersKeepHops(cfg, sys, e);
    }
  }

  lemma OriginateKeeps(cfg: Config, sys: System, e: Event)
    requires Grounded(sys) && e.Originate?
    ensures sys.nextHop <= Step(cfg, sys, e).nextHop
    ensures forall key :: key in sys.issued ==> key in Step(cfg, sys, e).issued && Step(cfg, sys, e).issued[key] == sys.issued[key]
  {
    if Step(cfg, sys, e) != sys {
      var p := e.source;
      var op := Operation(p, e.destination, sys.peers[p].nextId, e.mode, e.priority, e.bytes);
      assert PeerGrounded(sys, p, sys.peers[p]);
      NamedIsFresh(sys, p, op);
      if sys.peers[p].coordinator == p {
        OwnOriginKeeps(cfg, Named(sys, p, op), p, op, e.ready, e.reach);
      } else {
        MemberOrigin(cfg, Named(sys, p, op), p, op, e.ready);
      }
    }
  }

  lemma OwnOriginKeeps(cfg: Config, sys: System, p: PeerId, op: Operation, ready: bool, reach: Reach)
    requires p in sys.peers
    ensures var sys' := OriginateAsCoordinator(cfg, sys, p, op, ready, reach); sys.nextHop <= sys'.nextHop && sys'.issued == sys.issued
  {
  }

  lemma OthersKeepHops(cfg: Config, sys: System, e: Event)
    requires !e.Originate?
    ensures sys.nextHop <= Step(cfg, sys, e).nextHop
  {
  }

  lemma SentBySelf(cfg: Config, sys: System, e: Event, m: Message)
    requires m in Step(cfg, sys, e).net && m.Reliable? && m !in sys.net
    ensures m.from == Where(e)
  {
    match e
    case Originate(_, _, _, _, _, _, _) => OriginateSends(cfg, sys, e, m);
    case Receive(p, x, ready, reach) => ReceiveSends(cfg, sys, p, x, ready, reach, m);
    case AckArrives(p, x, reach) =>
      var q := sys.peers[p];
      var rest := With(sys, p, q.(hops := WithoutHop(q.hops, x.hop)), {});
      var key := q.hops[x.hop].key;
      ApplySends(rest, p, p, Acknowledged(LimitsOf(cfg, p), q.relays, key), Some(key.id), reach, m);
    case HopTimesOut(p, hop, reach) => TimeoutSends(cfg, sys, p, hop, reach, m);
    case OrderedHopSubmitted(p, key, reach) => ApplySends(sys, p, p, Submitted(LimitsOf(cfg, p), sys.peers[p].relays, key), None, reach, m);
    case ForwardFails(p, key, reach) =>
      ApplySends(sys, p, p, FinalHopFailure(LimitsOf(cfg, p), sys.peers[p].relays, key, DestinationUnavailable), Some(key.id), reach, m);
    case _ => PlainSends(cfg, sys, e, m);
  }

  lemma PlainSends(cfg: Config, sys: System, e: Event, m: Message)
    requires Quiet(e) || e.HandOff? || e.SignalArrives? || e.CancelSend? || e.Submits?
    requires m in Step(cfg, sys, e).net && m.Reliable? && m !in sys.net
    ensures m.from == Where(e)
  {
  }

  lemma TimeoutSends(cfg: Config, sys: System, p: PeerId, hop: nat, reach: Reach, m: Message)
    requires m in HopTimesOutStep(cfg, sys, p, hop, reach).net && m.Reliable? && m !in sys.net
    ensures m.from == p
  {
    var q := sys.peers[p];
    var key := q.hops[hop].key;
    var rest := With(sys, p, q.(hops := WithoutHop(q.hops, hop)), {});
    if q.hops[hop].finalHop && q.coordinator == p {
      ApplySends(rest, p, p, FinalHopFailure(LimitsOf(cfg, p), q.relays, key, DestinationAckTimeout), Some(key.id), reach, m);
    }
  }

  lemma ReceiveSends(cfg: Config, sys: System, p: PeerId, x: Message, ready: bool, reach: Reach, m: Message)
    requires m in ReceiveStep(cfg, sys, p, x, ready, reach).net && m.Reliable? && m !in sys.net
    ensures m.from == p
  {
    if sys.peers[p].coordinator == p {
      ApplySends(Bind(sys, x.op, true), p, x.from, AdmittedOutcome(cfg, sys, p, x.op, x.hop, ready), None, reach, m);
    } else {
      OnlyRouterChanges(sys.peers[p], p, x, reach);
    }
  }

  lemma OriginateSends(cfg: Config, sys: System, e: Event, m: Message)
    requires e.Originate? && m in Step(cfg, sys, e).net && m.Reliable? && m !in sys.net
    ensures m.from == e.source
  {
    var p := e.source;
    var op := Operation(p, e.destination, sys.peers[p].nextId, e.mode, e.priority, e.bytes);
    var named := Named(sys, p, op);
    if sys.peers[p].coordinator == p {
      var outcome := OwnOutcome(cfg, named, p, op, e.ready);
      ApplySends(Bind(named, op, true), p, p, outcome, Some(op.id), e.reach, m);
    } else {
      MemberOrigin(cfg, named, p, op, e.ready);
    }
  }

  // ---------- what is newly waited for ----------

  // The wait for a hop begins when its MessageId is allocated, or when a relay that stays
  // retained is forwarded.
  ghost predicate NewWait(sys: System, sys': System, p: PeerId, h: nat)
    requires p in sys.peers && p in sys'.peers
  {
    h in sys.peers[p].hops || h >= sys.nextHop || exists x :: x in sys'.peers[p].relays && x.hop == h
  }

  lemma ApplyNewWait(sys: System, c: PeerId, from: PeerId, outcome: Outcome, local: Option<GroupMessageId>, reach: Reach, h: nat)
    requires c in sys.peers && (outcome.result.Ok? ==> ForwardsHead(outcome.relays, outcome.result.value))
    requires c in Apply(sys, c, from, outcome, local, reach).peers && h in Apply(sys, c, from, outcome, local, reach).peers[c].hops
    ensures NewWait(sys, Apply(sys, c, from, outcome, local, reach), c, h)
  {
    ApplyWaits(sys, c, from, outcome, local, reach);
    ApplyRelays(sys, c, from, outcome, local, reach);
  }

  lemma ResultNewWait(cfg: Config, sys: System, c: PeerId, key: MessageKey, outcome: Outcome, local: Option<GroupMessageId>, reach: Reach, h: nat)
    requires c in sys.peers && ResultFor(cfg, c, sys.peers[c].relays, key, outcome)
    requires c in Apply(sys, c, c, outcome, local, reach).peers && h in Apply(sys, c, c, outcome, local, reach).peers[c].hops
    ensures NewWait(sys, Apply(sys, c, c, outcome, local, reach), c, h)
  {
    if outcome.result.Ok? { ResultForwardsHead(cfg, c, sys.peers[c].relays, key, outcome); }
    ApplyNewWait(sys, c, c, outcome, local, reach, h);
  }

  lemma AdmissionNewWait(cfg: Config, sys: System, c: PeerId, from: PeerId, op: Operation, sourceHop: nat, ready: bool,
                         local: Option<GroupMessageId>, reach: Reach, h: nat)
    requires c in sys.peers
    requires var sys' := Apply(Bind(sys, op, true), c, from, AdmittedOutcome(cfg, sys, c, op, sourceHop, ready), local, reach);
             c in sys'.peers && h in sys'.peers[c].hops
    ensures NewWait(sys, Apply(Bind(sys, op, true), c, from, AdmittedOutcome(cfg, sys, c, op, sourceHop, ready), local, reach), c, h)
  {
    ApplyWaits(Bind(sys, op, true), c, from, AdmittedOutcome(cfg, sys, c, op, sourceHop, ready), local, reach);
    AdmissionIs(cfg, sys, c, op, sourceHop, ready);
  }

  lemma OwnAdmissionNewWait(cfg: Config, sys: System, c: PeerId, op: Operation, ready: bool, reach: Reach, h: nat)
    requires c in sys.peers && c in OriginateAsCoordinator(cfg, sys, c, op, ready, reach).peers
    requires h in OriginateAsCoordinator(cfg, sys, c, op, ready, reach).peers[c].hops
    ensures NewWait(sys, OriginateAsCoordinator(cfg, sys, c, op, ready, reach), c, h)
  {
    AdmissionNewWait(cfg, sys, c, c, op, 0, ready, Some(op.id), reach, h);
  }

  lemma OriginateNewWait(cfg: Config, sys: System, e: Event, h: nat)
    requires e.Originate? && e.source in sys.peers && e.source in Step(cfg, sys, e).peers && h in Step(cfg, sys, e).peers[e.source].hops
    ensures NewWait(sys, Step(cfg, sys, e), e.source, h)
  {
    if Step(cfg, sys, e) != sys {
      var p := e.source;
      var op := Operation(p, e.destination, sys.peers[p].nextId, e.mode, e.priority, e.bytes);
      if sys.peers[p].coordinator == p {
        OwnAdmissionNewWait(cfg, Named(sys, p, op), p, op, e.ready, e.reach, h);
      } else {
        MemberOrigin(cfg, Named(sys, p, op), p, op, e.ready);
      }
    }
  }

  lemma ReceiveNewWait(cfg: Config, sys: System, p: PeerId, m: Message, ready: bool, reach: Reach, h: nat)
    requires p in sys.peers && p in ReceiveStep(cfg, sys, p, m, ready, reach).peers && h in ReceiveStep(cfg, sys, p, m, ready, reach).peers[p].hops
    ensures NewWait(sys, ReceiveStep(cfg, sys, p, m, ready, reach), p, h)
  {
    if ReceiveStep(cfg, sys, p, m, ready, reach) != sys {
      if sys.peers[p].coordinator == p {
        AdmissionNewWait(cfg, sys, p, m.from, m.op, m.hop, ready, None, reach, h);
      } else {
        OnlyRouterChanges(sys.peers[p], p, m, reach);
      }
    }
  }

  lemma AckNewWait(cfg: Config, sys: System, p: PeerId, m: Message, reach: Reach, h: nat)
    requires p in sys.peers && p in AckArrivesStep(cfg, sys, p, m, reach).peers && h in AckArrivesStep(cfg, sys, p, m, reach).peers[p].hops
    ensures NewWait(sys, AckArrivesStep(cfg, sys, p, m, reach), p, h)
  {
    if AckArrivesStep(cfg, sys, p, m, reach) != sys && sys.peers[p].hops[m.hop].finalHop && sys.peers[p].coordinator == p {
      var q := sys.peers[p];
      var key := q.hops[m.hop].key;
      ResultNewWait(cfg, With(sys, p, q.(hops := WithoutHop(q.hops, m.hop)), {}), p, key, Acknowledged(LimitsOf(cfg, p), q.relays, key),
                    Some(key.id), reach, h);
    }
  }

  lemma TimeoutNewWait(cfg: Config, sys: System, p: PeerId, hop: nat, reach: Reach, h: nat)
    requires p in sys.peers && p in HopTimesOutStep(cfg, sys, p, hop, reach).peers && h in HopTimesOutStep(cfg, sys, p, hop, reach).peers[p].hops
    ensures NewWait(sys, HopTimesOutStep(cfg, sys, p, hop, reach), p, h)
  {
    if hop in sys.peers[p].hops {
      var q := sys.peers[p];
      var key := q.hops[hop].key;
      var rest := q.(hops := WithoutHop(q.hops, hop));
      if q.hops[hop].finalHop && q.coordinator == p {
        ResultNewWait(cfg, With(sys, p, rest, {}), p, key, FinalHopFailure(LimitsOf(cfg, p), q.relays, key, DestinationAckTimeout),
                      Some(key.id), reach, h);
      } else {
        SourceTimedOutIsSame(rest, key.id);
      }
    }
  }

  lemma ForwardResultNewWait(cfg: Config, sys: System, e: Event, p: PeerId, h: nat)
    requires p in sys.peers && Where(e) == p && p in Step(cfg, sys, e).peers && (e.OrderedHopSubmitted? || e.ForwardFails?)
    requires h in Step(cfg, sys, e).peers[p].hops
    ensures NewWait(sys, Step(cfg, sys, e), p, h)
  {
    if Step(cfg, sys, e) != sys {
      match e
      case OrderedHopSubmitted(_, key, reach) =>
        ResultNewWait(cfg, sys, p, key, Submitted(LimitsOf(cfg, p), sys.peers[p].relays, key), None, reach, h);
      case ForwardFails(_, key, reach) =>
        ResultNewWait(cfg, sys, p, key, FinalHopFailure(LimitsOf(cfg, p), sys.peers[p].relays, key, DestinationUnavailable), Some(key.id), reach, h);
    }
  }

  lemma PlainNewWait(cfg: Config, sys: System, e: Event, p: PeerId, h: nat)
    requires p in sys.peers && Where(e) == p && p in Step(cfg, sys, e).peers && h in Step(cfg, sys, e).peers[p].hops
    requires Quiet(e) || e.HandOff? || e.SignalArrives? || e.CancelSend? || e.Submits?
    ensures NewWait(sys, Step(cfg, sys, e), p, h)
  {
    match e
    case SignalArrives(_, m, reach) => SignalIsSame(sys, p, m, reach);
    case _ => SameOrNewWait(cfg, sys, e, p, h);
  }

  lemma SameOrNewWait(cfg: Config, sys: System, e: Event, p: PeerId, h: nat)
    requires p in sys.peers && Where(e) == p && p in Step(cfg, sys, e).peers && h in Step(cfg, sys, e).peers[p].hops
    requires Quiet(e) || e.HandOff? || e.CancelSend? || e.Submits?
    ensures h in sys.peers[p].hops || h >= sys.nextHop
  {
  }

  lemma WaitsBegin(cfg: Config, sys: System, e: Event, p: PeerId, h: nat)
    requires p in sys.peers && Where(e) == p && p in Step(cfg, sys, e).peers && h in Step(cfg, sys, e).peers[p].hops
    ensures NewWait(sys, Step(cfg, sys, e), p, h)
  {
    if e.Originate? {
      OriginateNewWait(cfg, sys, e, h);
    } else if e.Receive? {
      ReceiveNewWait(cfg, sys, p, e.message, e.ready, e.reach, h);
    } else if e.AckArrives? {
      AckNewWait(cfg, sys, p, e.message, e.reach, h);
    } else if e.HopTimesOut? {
      TimeoutNewWait(cfg, sys, p, e.hop, e.reach, h);
    } else if e.OrderedHopSubmitted? || e.ForwardFails? {
      ForwardResultNewWait(cfg, sys, e, p, h);
    } else {
      PlainNewWait(cfg, sys, e, p, h);
    }
  }

  // ---------- every step ----------

  lemma HereStaysQuiet(cfg: Config, sys: System, e: Event, c: PeerId, r: Relay)
    requires Grounded(sys) && QuietHead(sys, c, r) && Where(e) == c && Step(cfg, sys, e) != sys
    requires !Ends(e, c, r.op.destination) && !Touches(sys, e, c, r)
    ensures StaysQuiet(sys, Step(cfg, sys, e), c, r)
  {
    if e.Originate? {
      OriginateStaysQuiet(cfg, sys, e, c, r);
    } else if e.Receive? {
      ReceiveStaysQuiet(cfg, sys, c, e.message, e.ready, e.reach, r);
    } else if e.AckArrives? || e.HopTimesOut? || e.Resumes? || e.DestinationGone? {
      ConnectionStaysQuiet(cfg, sys, e, c, r);
    } else {
      PlainStaysQuiet(cfg, sys, e, c, r);
    }
  }

  lemma ConnectionStaysQuiet(cfg: Config, sys: System, e: Event, c: PeerId, r: Relay)
    requires Grounded(sys) && QuietHead(sys, c, r) && Where(e) == c && Step(cfg, sys, e) != sys && !Ends(e, c, r.op.destination) && !Touches(sys, e, c, r)
    requires e.AckArrives? || e.HopTimesOut? || e.Resumes? || e.DestinationGone?
    ensures StaysQuiet(sys, Step(cfg, sys, e), c, r)
  {
    if e.AckArrives? {
      AckStaysQuiet(cfg, sys, c, e.message, e.reach, r);
    } else if e.HopTimesOut? {
      assert HopTimesOutStep(cfg, sys, c, e.hop, e.reach) != sys ==> e.hop in sys.peers[c].hops;
      TimeoutStaysQuiet(cfg, sys, c, e.hop, e.reach, r);
    } else {
      SessionStaysQuiet(cfg, sys, e, c, r);
    }
  }

  lemma SessionStaysQuiet(cfg: Config, sys: System, e: Event, c: PeerId, r: Relay)
    requires Grounded(sys) && QuietHead(sys, c, r) && Where(e) == c && Step(cfg, sys, e) != sys && !Ends(e, c, r.op.destination) && !Touches(sys, e, c, r)
    requires e.Resumes? || e.DestinationGone?
    ensures StaysQuiet(sys, Step(cfg, sys, e), c, r)
  {
    match e
    case Resumes(_, key) => ResumesStaysQuiet(sys, c, key, r);
    case DestinationGone(_, d, status) => DestinationGoneStaysQuiet(sys, c, d, status, r);
  }

  lemma PlainStaysQuiet(cfg: Config, sys: System, e: Event, c: PeerId, r: Relay)
    requires Grounded(sys) && QuietHead(sys, c, r) && Where(e) == c && Step(cfg, sys, e) != sys
    requires !Ends(e, c, r.op.destination) && !Touches(sys, e, c, r)
    requires !e.Originate? && !e.Receive? && !e.AckArrives? && !e.HopTimesOut? && !e.Resumes? && !e.DestinationGone?
    ensures StaysQuiet(sys, Step(cfg, sys, e), c, r)
  {
    if e.OrderedHopSubmitted? || e.ForwardFails? {
      ForwardResultStaysQuiet(cfg, sys, e, c, r);
    } else {
      if e.Submits? { SubmitsTableStays(sys, c, e.pass, e.submitted); }
      else if e.SignalArrives? || e.CancelSend? { SourceTableStays(cfg, sys, e, c); }
      else { TableStays(cfg, sys, e, c); }
      SameTableStaysQuiet(sys, Step(cfg, sys, e), c, r);
    }
  }

  lemma StepStaysQuiet(cfg: Config, sys: System, e: Event, c: PeerId, r: Relay)
    requires Grounded(sys) && AllIdsUsed(sys) && QuietHead(sys, c, r) && !Ends(e, c, r.op.destination) && !Touches(sys, e, c, r)
    ensures StaysQuiet(sys, Step(cfg, sys, e), c, r)
  {
    if Where(e) != c {
      ElsewhereTableStays(cfg, sys, e, c);
      SameTableStaysQuiet(sys, Step(cfg, sys, e), c, r);
    } else if Step(cfg, sys, e) != sys {
      HereStaysQuiet(cfg, sys, e, c, r);
    }
  }

  lemma StepStaysIdle(cfg: Config, sys: System, e: Event, c: PeerId, r: Relay)
    requires Grounded(sys) && AllIdsUsed(sys) && IdleHead(sys, c, r) && !Ends(e, c, r.op.destination) && !FailsHead(e, c, r)
    ensures IdleHead(Step(cfg, sys, e), c, r) && StaysQuiet(sys, Step(cfg, sys, e), c, r)
  {
    StepStaysQuiet(cfg, sys, e, c, r);
  }

  // ---------- every run ----------

  // The coordinator keeps its authority and the destination stays.
  ghost predicate Within(later: seq<Event>, c: PeerId, d: PeerId) {
    forall i :: 0 <= i < |later| ==> !Ends(later[i], c, d)
  }

  // The head is not about to fail either.
  ghost predicate Stuck(sys: System, c: PeerId, r: Relay) {
    IdleHead(sys, c, r) && r.hop !in sys.peers[c].failing
  }

  lemma StepStaysStuck(cfg: Config, sys: System, e: Event, c: PeerId, r: Relay)
    requires Grounded(sys) && AllIdsUsed(sys) && Stuck(sys, c, r) && !Ends(e, c, r.op.destination)
    ensures Stuck(Step(cfg, sys, e), c, r) && StaysQuiet(sys, Step(cfg, sys, e), c, r)
  {
    if FailsHead(e, c, r) {
      assert PeerGrounded(sys, c, sys.peers[c]);
      FindIs(sys.peers[c].relays, r);
      assert Step(cfg, sys, e) == sys;
    } else {
      StepStaysIdle(cfg, sys, e, c, r);
    }
  }

  lemma FindIs(relays: seq<Relay>, r: Relay)
    requires UniqueKeys(relays) && r in relays
    ensures Find(relays, r.Key()) == Some(r)
  {
    FoundMember(relays, r);
    SameKeySame(relays, r, Find(relays, r.Key()).value);
  }

  // While the coordinator keeps its authority and the destination stays, a stuck head is
  // retained, and nothing of its pair that was known before is sent.
  lemma {:induction false} StuckForever(cfg: Config, sys: System, later: seq<Event>, c: PeerId, r: Relay)
    requires Grounded(sys) && AllIdsUsed(sys) && Stuck(sys, c, r) && Within(later, c, r.op.destination)
    ensures var end := Run(cfg, sys, later);
            Stuck(end, c, r) && sys.nextHop <= end.nextHop && NothingSent(sys, end, c, r)
  {
    if later != [] {
      var front := later[..|later| - 1];
      StuckForever(cfg, sys, front, c, r);
      RunIdsUsed(cfg, sys, front);
      RunStaysGrounded(cfg, sys, front);
      StepStaysStuck(cfg, Run(cfg, sys, front), later[|later| - 1], c, r);
    }
  }

  // ---------- how a head is released ----------

  // A relay is gone and the next of its pair is out, waited for if it is acknowledged.
  ghost predicate Promoted(sys': System, c: PeerId, relays: seq<Relay>, gone: Relay) {
    && c in sys'.peers && sys'.peers[c].coordinator == c && sys'.peers[c].relays == Without(relays, gone.Key())
    && (var next := Head(Without(relays, gone.Key()), gone.op.source, gone.op.destination);
        next.Some? ==>
          && FinalHop(c, next.value) in sys'.net
          && (next.value.op.mode == ReliableAcked ==>
                && next.value.hop in sys'.peers[c].hops
                && sys'.peers[c].hops[next.value.hop] == Hop(next.value.Key(), gone.op.destination, true)))
  }

  lemma ResultPromotes(cfg: Config, sys: System, c: PeerId, gone: Relay, outcome: Outcome, local: Option<GroupMessageId>)
    requires c in sys.peers && sys.peers[c].coordinator == c && Find(sys.peers[c].relays, gone.Key()) == Some(gone)
    requires ResultFor(cfg, c, sys.peers[c].relays, gone.Key(), outcome) && outcome.result.Ok?
    ensures Promoted(Apply(sys, c, c, outcome, local, Done), c, sys.peers[c].relays, gone)
  {
    ResultIs(cfg, c, sys.peers[c].relays, gone.Key(), outcome);
    ApplyWaits(sys, c, c, outcome, local, Done);
    if outcome.result.value.forward.Some? {
      HeadMember(Without(sys.peers[c].relays, gone.Key()), gone.op.source, gone.op.destination);
      ApplyForwards(sys, c, outcome, local);
    }
  }

  lemma ApplyForwards(sys: System, c: PeerId, outcome: Outcome, local: Option<GroupMessageId>)
    requires c in sys.peers && outcome.result.Ok? && outcome.result.value.forward.Some?
    ensures var (sys', next) := (Apply(sys, c, c, outcome, local, Done), outcome.result.value.forward.value);
            && c in sys'.peers && FinalHop(c, next) in sys'.net
            && (next.op.mode == ReliableAcked ==>
                  next.hop in sys'.peers[c].hops && sys'.peers[c].hops[next.hop] == Hop(next.Key(), next.op.destination, true))
  {
  }

  lemma TimeoutPromotes(cfg: Config, sys: System, c: PeerId, h: nat, gone: Relay)
    requires c in sys.peers && sys.peers[c].coordinator == c && Find(sys.peers[c].relays, gone.Key()) == Some(gone)
    requires h in sys.peers[c].hops && WaitsFor(sys.peers[c].hops[h], gone.Key())
    ensures Promoted(HopTimesOutStep(cfg, sys, c, h, Done), c, sys.peers[c].relays, gone)
  {
    var q := sys.peers[c];
    ResultPromotes(cfg, With(sys, c, q.(hops := WithoutHop(q.hops, h)), {}), c, gone,
                   FinalHopFailure(LimitsOf(cfg, c), q.relays, gone.Key(), DestinationAckTimeout), Some(gone.op.id));
  }

  lemma FailurePromotes(cfg: Config, sys: System, c: PeerId, gone: Relay)
    requires c in sys.peers && sys.peers[c].coordinator == c && Find(sys.peers[c].relays, gone.Key()) == Some(gone)
    requires gone.hop in sys.peers[c].failing
    ensures Promoted(ForwardFailsStep(cfg, sys, c, gone.Key(), Done), c, sys.peers[c].relays, gone)
  {
    ResultPromotes(cfg, sys, c, gone, FinalHopFailure(LimitsOf(cfg, c), sys.peers[c].relays, gone.Key(), DestinationUnavailable),
                   Some(gone.op.id));
  }

  lemma SubmittedPromotes(cfg: Config, sys: System, c: PeerId, gone: Relay)
    requires c in sys.peers && sys.peers[c].coordinator == c && Find(sys.peers[c].relays, gone.Key()) == Some(gone)
    requires gone.op.mode == ReliableOrdered && IsHead(sys.peers[c].relays, gone)
    ensures var sys1 := ResumesStep(sys, c, gone.Key());
            Promoted(OrderedHopSubmittedStep(cfg, sys1, c, gone.Key(), Done), c, sys.peers[c].relays, gone)
  {
    var sys1 := ResumesStep(sys, c, gone.Key());
    ResultPromotes(cfg, sys1, c, gone, Submitted(LimitsOf(cfg, c), sys1.peers[c].relays, gone.Key()), None);
  }

  // A head moves on its own: its result is waited for, it is about to fail, or a RESUME
  // sends it again.
  ghost predicate Moves(q: Peer, r: Relay) {
    r.op.mode == ReliableOrdered || r.hop in q.failing || exists h :: h in q.hops && WaitsFor(q.hops[h], r.Key())
  }

  // The events that release it.
  lemma HeadReleased(cfg: Config, sys: System, c: PeerId, r: Relay) returns (later: seq<Event>)
    requires c in sys.peers && sys.peers[c].coordinator == c && Find(sys.peers[c].relays, r.Key()) == Some(r)
    requires IsHead(sys.peers[c].relays, r) && Moves(sys.peers[c], r)
    ensures Within(later, c, r.op.destination) && Promoted(Run(cfg, sys, later), c, sys.peers[c].relays, r)
  {
    var q := sys.peers[c];
    if r.op.mode == ReliableOrdered {
      later := [Resumes(c, r.Key()), OrderedHopSubmitted(c, r.Key())];
      OrderedReleased(cfg, sys, c, r);
    } else if r.hop in q.failing {
      later := [ForwardFails(c, r.Key())];
      FailingReleased(cfg, sys, c, r);
    } else {
      var h :| h in q.hops && WaitsFor(q.hops[h], r.Key());
      later := [HopTimesOut(c, h)];
      WaitingReleased(cfg, sys, c, h, r);
    }
  }

  lemma OrderedReleased(cfg: Config, sys: System, c: PeerId, r: Relay)
    requires c in sys.peers && sys.peers[c].coordinator == c && Find(sys.peers[c].relays, r.Key()) == Some(r)
    requires r.op.mode == ReliableOrdered && IsHead(sys.peers[c].relays, r)
    ensures Promoted(Run(cfg, sys, [Resumes(c, r.Key()), OrderedHopSubmitted(c, r.Key())]), c, sys.peers[c].relays, r)
  {
    SubmittedPromotes(cfg, sys, c, r);
    RunTwo(cfg, sys, Resumes(c, r.Key()), OrderedHopSubmitted(c, r.Key()));
  }

  lemma FailingReleased(cfg: Config, sys: System, c: PeerId, r: Relay)
    requires c in sys.peers && sys.peers[c].coordinator == c && Find(sys.peers[c].relays, r.Key()) == Some(r)
    requires r.hop in sys.peers[c].failing
    ensures Promoted(Run(cfg, sys, [ForwardFails(c, r.Key())]), c, sys.peers[c].relays, r)
  {
    FailurePromotes(cfg, sys, c, r);
    RunOne(cfg, sys, ForwardFails(c, r.Key()));
  }

  lemma WaitingReleased(cfg: Config, sys: System, c: PeerId, h: nat, r: Relay)
    requires c in sys.peers && sys.peers[c].coordinator == c && Find(sys.peers[c].relays, r.Key()) == Some(r)
    requires h in sys.peers[c].hops && WaitsFor(sys.peers[c].hops[h], r.Key())
    ensures Promoted(Run(cfg, sys, [HopTimesOut(c, h)]), c, sys.peers[c].relays, r)
  {
    TimeoutPromotes(cfg, sys, c, h, r);
    RunOne(cfg, sys, HopTimesOut(c, h));
  }

  // ---------- exactly when a head is stuck ----------

  // The head moves on its own, or the result of another relay of its pair, on a hop left
  // from an earlier authority, sends it again.
  ghost predicate CanMove(q: Peer, r: Relay) {
    Moves(q, r) || exists h :: h in q.hops && MovesPair(q, q.hops[h], r)
  }

  predicate MovesPair(q: Peer, hop: Hop, r: Relay) {
    hop.finalHop && Find(q.relays, hop.key).Some? && Find(q.relays, hop.key).value.Between(r.op.source, r.op.destination)
  }

  // A hop is left over for an operation of the pair that a member would have to send again.
  ghost predicate LeftOver(sys: System, c: PeerId, r: Relay)
    requires c in sys.peers
  {
    r.op.source != c && exists h :: h in sys.peers[c].hops && LeftOverHop(sys, sys.peers[c], sys.peers[c].hops[h], r)
  }

  predicate LeftOverHop(sys: System, q: Peer, hop: Hop, r: Relay) {
    hop.finalHop && OfSamePair(sys, hop.key, r) && Find(q.relays, hop.key).None?
  }

  ghost predicate Releases(cfg: Config, sys: System, later: seq<Event>, c: PeerId, r: Relay) {
    && Within(later, c, r.op.destination)
    && (var end := Run(cfg, sys, later); c in end.peers && r !in end.peers[c].relays)
  }

  lemma NotMovingIsStuck(sys: System, c: PeerId, r: Relay)
    requires Grounded(sys) && c in sys.peers && r in sys.peers[c].relays && IsHead(sys.peers[c].relays, r)
    requires !CanMove(sys.peers[c], r) && !LeftOver(sys, c, r)
    ensures Stuck(sys, c, r)
  {
    var q := sys.peers[c];
    assert PeerGrounded(sys, c, q);
    forall h | h in q.hops ensures !Concerns(sys, q, c, q.hops[h], r) {
      var found := Find(q.relays, q.hops[h].key);
      if found.Some? { assert Known(sys, found.value.op) && !MovesPair(q, q.hops[h], r); }
      else { assert !LeftOver(sys, c, r); assert r.op.source != c ==> !LeftOverHop(sys, q, q.hops[h], r); }
    }
  }

  lemma PromotedIsGone(sys': System, c: PeerId, relays: seq<Relay>, r: Relay)
    requires Promoted(sys', c, relays, r)
    ensures r !in sys'.peers[c].relays
  {
    WithoutMembers(relays, r.Key());
  }

  // The hop of another relay of the pair runs out: the head is sent again, waited for.
  lemma OtherMovesHead(cfg: Config, sys: System, c: PeerId, h: nat, r: Relay)
    requires Grounded(sys) && c in sys.peers && r in sys.peers[c].relays && IsHead(sys.peers[c].relays, r) && r.op.mode == ReliableAcked
    requires h in sys.peers[c].hops && MovesPair(sys.peers[c], sys.peers[c].hops[h], r) && sys.peers[c].hops[h].key != r.Key()
    ensures var sys' := HopTimesOutStep(cfg, sys, c, h, Done);
            && c in sys'.peers && r in sys'.peers[c].relays && IsHead(sys'.peers[c].relays, r)
            && r.hop in sys'.peers[c].hops && WaitsFor(sys'.peers[c].hops[r.hop], r.Key())
  {
    var q := sys.peers[c];
    var gone := Find(q.relays, q.hops[h].key).value;
    assert PeerGrounded(sys, c, q);
    TimeoutPromotes(cfg, sys, c, h, gone);
    WithoutMembers(q.relays, gone.Key());
    WithoutKeepsHead(q.relays, gone.Key(), r);
  }

  lemma CanMoveReleases(cfg: Config, sys: System, c: PeerId, r: Relay) returns (later: seq<Event>)
    requires Grounded(sys) && c in sys.peers && r in sys.peers[c].relays && IsHead(sys.peers[c].relays, r) && CanMove(sys.peers[c], r)
    ensures Releases(cfg, sys, later, c, r)
  {
    var q := sys.peers[c];
    HeadFound(sys, c, r);
    if Moves(q, r) {
      later := MovesReleases(cfg, sys, c, r);
    } else {
      var h :| h in q.hops && MovesPair(q, q.hops[h], r);
      assert q.hops[h].key != r.Key() by { assert !WaitsFor(q.hops[h], r.Key()); }
      later := OtherReleases(cfg, sys, c, h, r);
    }
  }

  lemma MovesReleases(cfg: Config, sys: System, c: PeerId, r: Relay) returns (later: seq<Event>)
    requires c in sys.peers && sys.peers[c].coordinator == c && Find(sys.peers[c].relays, r.Key()) == Some(r)
    requires IsHead(sys.peers[c].relays, r) && Moves(sys.peers[c], r)
    ensures Releases(cfg, sys, later, c, r)
  {
    later := HeadReleased(cfg, sys, c, r);
    PromotedIsGone(Run(cfg, sys, later), c, sys.peers[c].relays, r);
  }

  lemma HeadFound(sys: System, c: PeerId, r: Relay)
    requires Grounded(sys) && c in sys.peers && r in sys.peers[c].relays
    ensures sys.peers[c].coordinator == c && Find(sys.peers[c].relays, r.Key()) == Some(r)
  {
    assert PeerGrounded(sys, c, sys.peers[c]);
    FindIs(sys.peers[c].relays, r);
  }

  lemma OtherReleases(cfg: Config, sys: System, c: PeerId, h: nat, r: Relay) returns (later: seq<Event>)
    requires Grounded(sys) && c in sys.peers && r in sys.peers[c].relays && IsHead(sys.peers[c].relays, r) && r.op.mode == ReliableAcked
    requires h in sys.peers[c].hops && MovesPair(sys.peers[c], sys.peers[c].hops[h], r) && sys.peers[c].hops[h].key != r.Key()
    ensures Releases(cfg, sys, later, c, r)
  {
    var next := HopTimesOutStep(cfg, sys, c, h, Done);
    OtherMovesHead(cfg, sys, c, h, r);
    HopTimesOutStaysGrounded(cfg, sys, c, h, Done);
    HeadFound(next, c, r);
    var rest := HeadReleased(cfg, next, c, r);
    PromotedIsGone(Run(cfg, next, rest), c, next.peers[c].relays, r);
    later := [HopTimesOut(c, h)] + rest;
    TimeoutThen(cfg, sys, c, h, r, rest);
  }

  lemma TimeoutThen(cfg: Config, sys: System, c: PeerId, h: nat, r: Relay, rest: seq<Event>)
    requires Releases(cfg, HopTimesOutStep(cfg, sys, c, h, Done), rest, c, r)
    ensures Releases(cfg, sys, [HopTimesOut(c, h)] + rest, c, r)
  {
    RunOne(cfg, sys, HopTimesOut(c, h));
    RunConcat(cfg, sys, [HopTimesOut(c, h)], rest);
    var later := [HopTimesOut(c, h)] + rest;
    forall i | 0 <= i < |later| ensures !Ends(later[i], c, r.op.destination) { if i > 0 { assert later[i] == rest[i - 1]; } }
  }

  // After any run, while its coordinator keeps the authority and the destination stays, a
  // head can be released exactly when it can move: it is ordered, about to fail or waited
  // for, or a retained relay of its pair is. One direction has a proviso for a member's
  // pair: no hop is left over for an operation that is not retained.
  lemma HeadReleasedIff(cfg: Config, start: System, past: seq<Event>, c: PeerId, r: Relay)
    requires Initial(start) && c in Run(cfg, start, past).peers
    requires var q := Run(cfg, start, past).peers[c]; r in q.relays && IsHead(q.relays, r)
    ensures var sys := Run(cfg, start, past);
            && (CanMove(sys.peers[c], r) ==> exists later :: Releases(cfg, sys, later, c, r))
            && (!LeftOver(sys, c, r) && (exists later :: Releases(cfg, sys, later, c, r)) ==> CanMove(sys.peers[c], r))
  {
    var sys := Run(cfg, start, past);
    EveryRunGrounded(cfg, start, past);
    assert AllIdsUsed(start);
    RunIdsUsed(cfg, start, past);
    if CanMove(sys.peers[c], r) {
      var later := CanMoveReleases(cfg, sys, c, r);
    } else if !LeftOver(sys, c, r) {
      NotMovingIsStuck(sys, c, r);
      forall later: seq<Event> ensures !Releases(cfg, sys, later, c, r) {
        if Within(later, c, r.op.destination) { StuckForever(cfg, sys, later, c, r); }
      }
    }
  }

  // ---------- a cancelled head ----------

  // Only the head of a coordinator's own pair is ever waited for.
  lemma OwnHeadMovesAlone(sys: System, c: PeerId, r: Relay)
    requires Grounded(sys) && c in sys.peers && r in sys.peers[c].relays && IsHead(sys.peers[c].relays, r) && r.op.source == c
    ensures CanMove(sys.peers[c], r) <==> Moves(sys.peers[c], r)
  {
    var q := sys.peers[c];
    assert PeerGrounded(sys, c, q);
    forall h | h in q.hops && MovesPair(q, q.hops[h], r) ensures WaitsFor(q.hops[h], r.Key()) {
      assert IsHead(q.relays, Find(q.relays, q.hops[h].key).value);
    }
  }

  lemma CancelledWaitsEnd(cfg: Config, sys: System, c: PeerId, r: Relay, sessions: set<nat>)
    requires Grounded(sys) && c in sys.peers && r in sys.peers[c].relays && IsHead(sys.peers[c].relays, r)
    requires r.op.source == c && r.op.mode == ReliableAcked && r.hop !in sys.peers[c].failing
    requires r.op.id in sys.peers[c].handles && !sys.peers[c].handles[r.op.id].Terminal()
    ensures Stuck(CancelStep(cfg, sys, c, r.op.id, sessions), c, r)
  {
    var cancelled := CancelStep(cfg, sys, c, r.op.id, sessions);
    CancelStaysGrounded(cfg, sys, c, r.op.id, sessions);
    OwnHeadMovesAlone(cancelled, c, r);
    assert !Moves(cancelled.peers[c], r);
    NotMovingIsStuck(cancelled, c, r);
  }

  // After any run, cancelling a coordinator's own acknowledged head ends the wait and keeps
  // the relay: while the authority and the destination stay, it is never released, and
  // nothing that queues behind it is sent.
  lemma CancelledHeadBlocks(cfg: Config, start: System, past: seq<Event>, c: PeerId, r: Relay, sessions: set<nat>, later: seq<Event>)
    requires Initial(start) && c in Run(cfg, start, past).peers
    requires var q := Run(cfg, start, past).peers[c];
             && r in q.relays && IsHead(q.relays, r) && r.op.source == c && r.op.mode == ReliableAcked && r.hop !in q.failing
             && r.op.id in q.handles && !q.handles[r.op.id].Terminal()
    requires Within(later, c, r.op.destination)
    ensures var cancelled := CancelStep(cfg, Run(cfg, start, past), c, r.op.id, sessions);
            var end := Run(cfg, cancelled, later);
            c in end.peers && r in end.peers[c].relays && NothingSent(cancelled, end, c, r)
  {
    var sys := Run(cfg, start, past);
    EveryRunGrounded(cfg, start, past);
    assert AllIdsUsed(start);
    RunIdsUsed(cfg, start, past);
    CancelledWaitsEnd(cfg, sys, c, r, sessions);
    CancelStaysGrounded(cfg, sys, c, r.op.id, sessions);
    CancelKeepsIds(cfg, sys, c, r.op.id, sessions);
    StuckForever(cfg, CancelStep(cfg, sys, c, r.op.id, sessions), later, c, r);
  }

  lemma CancelKeepsIds(cfg: Config, sys: System, p: PeerId, id: GroupMessageId, sessions: set<nat>)
    requires AllIdsUsed(sys)
    ensures AllIdsUsed(CancelStep(cfg, sys, p, id, sessions))
  {
    var sys' := CancelStep(cfg, sys, p, id, sessions);
    if p in sys.peers {
      CancelSettles(cfg, sys, p, id, sessions);
      forall other | other in sys'.peers ensures IdsUsed(sys'.peers[other]) { assert IdsUsed(sys.peers[other]); }
    }
  }
}
