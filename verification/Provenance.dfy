/**
 What every run keeps about where relays, hops and messages come from, whatever is
 answered and whatever fails: every operation in transit was issued by its source; only
 heads of a pair have been sent or are about to fail; and a coordinator's own relays are
 those of its own send calls, each admitted once.
 */
module Provenance {
  import opened Types
  import opened RelayTable
  import opened RelayController
  import RR = RelayRuns
  import opened RoutedDelivery
  import opened AckSoundness
  import opened HandleLaws

  ghost predicate RelaysGrounded(sys: System, p: PeerId, q: Peer) {
    && UniqueKeys(q.relays)
    && (q.relays != [] ==> q.coordinator == p)
    && (forall r :: r in q.relays ==> Known(sys, r.op) && r.op.destination != p && r.hop < sys.nextHop)
    && (forall r1, r2 :: r1 in q.relays && r2 in q.relays && r1.hop == r2.hop ==> r1 == r2)
  }

  // A relay whose final hop was sent, or is about to fail, is the oldest of its pair; and
  // so is an own relay that is waited for.
  ghost predicate HeadsGrounded(sys: System, p: PeerId, q: Peer) {
    && (forall r :: r in q.relays && (FinalHop(p, r) in sys.net || r.hop in q.failing) ==> IsHead(q.relays, r))
    && (forall r, h :: r in q.relays && r.op.source == p && h in q.hops && WaitsFor(q.hops[h], r.Key()) ==> IsHead(q.relays, r))
    && (forall h :: h in q.failing ==> h < sys.nextHop)
  }

  predicate WaitsFor(hop: Hop, key: MessageKey) { hop.finalHop && hop.key == key }

  ghost predicate SourceGrounded(sys: System, p: PeerId, q: Peer) {
    && (forall key :: key in sys.issued && key.source == p ==> key.id < q.nextId)
    && (forall h :: h in q.hops ==> q.hops[h].key in sys.issued)
    && (forall id :: id in q.sends.live ==>
          q.sends.live[id].id == id && q.sends.live[id].source == p && Known(sys, q.sends.live[id]))
    && (forall r :: r in q.relays && r.op.source == p ==> r.op.id !in q.sends.live)
    && PassesSound(sys, p, q.passes)
  }

  ghost predicate PeerGrounded(sys: System, p: PeerId, q: Peer) {
    RelaysGrounded(sys, p, q) && HeadsGrounded(sys, p, q) && SourceGrounded(sys, p, q)
  }

  ghost predicate MessageGrounded(sys: System, m: Message) {
    m.Reliable? ==> Known(sys, m.op) && m.from != m.to && m.hop < sys.nextHop
  }

  ghost predicate Grounded(sys: System) {
    && (forall p :: p in sys.peers ==> PeerGrounded(sys, p, sys.peers[p]))
    && (forall m :: m in sys.net ==> MessageGrounded(sys, m))
  }

  // ---------- a step at one peer ----------

  // Only `p` changes, issues and sends.
  ghost predicate Extends(sys: System, sys': System, p: PeerId) {
    && p in sys.peers && p in sys'.peers && sys'.peers == sys.peers[p := sys'.peers[p]]
    && sys.nextHop <= sys'.nextHop && sys.net <= sys'.net
    && (forall key :: key in sys.issued ==> key in sys'.issued && sys'.issued[key] == sys.issued[key])
    && (forall key :: key in sys'.issued ==> key in sys.issued || key.source == p)
    && (forall m :: m in sys'.net && m.Reliable? ==> m in sys.net || (m.from == p && MessageGrounded(sys', m)))
  }

  lemma OthersStayGrounded(sys: System, sys': System, p: PeerId)
    requires Grounded(sys) && Extends(sys, sys', p) && PeerGrounded(sys', p, sys'.peers[p])
    ensures Grounded(sys')
  {
    forall other | other in sys'.peers && other != p ensures PeerGrounded(sys', other, sys'.peers[other]) {
      OtherStaysGrounded(sys, sys', p, other);
    }
    forall m | m in sys'.net ensures MessageGrounded(sys', m) {
      if m in sys.net { assert MessageGrounded(sys, m); }
    }
  }

  lemma PassesStay(sys: System, sys': System, p: PeerId, passes: seq<Pass>)
    requires PassesSound(sys, p, passes)
    requires forall key :: key in sys.issued ==> key in sys'.issued && sys'.issued[key] == sys.issued[key]
    ensures PassesSound(sys', p, passes)
  {
    forall k | 0 <= k < |passes| ensures PassSound(sys', p, passes[k]) { assert PassSound(sys, p, passes[k]); }
  }

  lemma OtherStaysGrounded(sys: System, sys': System, p: PeerId, other: PeerId)
    requires Grounded(sys) && Extends(sys, sys', p) && other in sys.peers && other != p
    ensures PeerGrounded(sys', other, sys.peers[other])
  {
    var q := sys.peers[other];
    assert PeerGrounded(sys, other, q);
    assert SourceGrounded(sys', other, q) by {
      PassesStay(sys, sys', other, q.passes);
    }
    assert HeadsGrounded(sys', other, q);
  }

  // ---------- steps that add no relay and no final hop ----------

  // Relays leave, and the oldest of a pair stays the oldest.
  ghost predicate Thins(relays: seq<Relay>, relays': seq<Relay>) {
    && UniqueKeys(relays')
    && (forall r :: r in relays' ==> r in relays)
    && (forall r :: r in relays' && IsHead(relays, r) ==> IsHead(relays', r))
  }

  lemma WithoutThins(relays: seq<Relay>, key: MessageKey)
    requires UniqueKeys(relays)
    ensures Thins(relays, Without(relays, key))
  {
    WithoutUnique(relays, key);
    WithoutMembers(relays, key);
    forall r | r in Without(relays, key) && IsHead(relays, r) ensures IsHead(Without(relays, key), r) {
      WithoutKeepsHead(relays, key, r);
    }
  }

  lemma WithoutKeepsHead(relays: seq<Relay>, key: MessageKey, r: Relay)
    requires IsHead(relays, r) && r.Key() != key
    ensures IsHead(Without(relays, key), r)
  {
    var s, d := r.op.source, r.op.destination;
    WithoutOfPair(relays, key, s, d);
    FirstStays(OfPair(relays, s, d), key);
  }

  lemma {:induction false} FirstStays(pair: seq<Relay>, key: MessageKey)
    requires pair != [] && pair[0].Key() != key
    ensures Without(pair, key) != [] && Without(pair, key)[0] == pair[0]
  {
    if |pair| > 1 { FirstStays(pair[..|pair| - 1], key); }
  }

  lemma OutsideThins(relays: seq<Relay>, scope: Scope)
    requires UniqueKeys(relays)
    ensures Thins(relays, Outside(relays, scope))
  {
    RR.OutsideUnique(relays, scope);
    RR.OutsideMembers(relays, scope);
    forall r | r in Outside(relays, scope) && IsHead(relays, r) ensures IsHead(Outside(relays, scope), r) {
      RR.OutsideOfPair(relays, scope, r.op.source, r.op.destination);
    }
  }

  ghost predicate Lighter(p: PeerId, q: Peer, q': Peer) {
    && Thins(q.relays, q'.relays)
    && (q'.relays != [] ==> q'.coordinator == p)
    && (forall h :: h in q'.hops ==> h in q.hops && q'.hops[h] == q.hops[h])
    && (forall id :: id in q'.sends.live ==> id in q.sends.live && q'.sends.live[id] == q.sends.live[id])
    && q'.failing == q.failing && q'.nextId == q.nextId
  }

  lemma LighterStaysGrounded(sys: System, p: PeerId, q': Peer, messages: set<Message>)
    requires Grounded(sys) && p in sys.peers && Lighter(p, sys.peers[p], q') && PassesSound(sys, p, q'.passes)
    requires forall m :: m in messages ==> !m.Reliable?
    ensures Grounded(With(sys, p, q', messages))
  {
    var sys' := With(sys, p, q', messages);
    assert PeerGrounded(sys, p, sys.peers[p]);
    LighterHeads(sys, p, q', messages);
    assert SourceGrounded(sys', p, q') by {
      PassesStay(sys, sys', p, q'.passes);
    }
    OthersStayGrounded(sys, sys', p);
  }

  lemma LighterHeads(sys: System, p: PeerId, q': Peer, messages: set<Message>)
    requires p in sys.peers && PeerGrounded(sys, p, sys.peers[p]) && Lighter(p, sys.peers[p], q')
    requires forall m :: m in messages ==> !m.Reliable?
    ensures var sys' := With(sys, p, q', messages); RelaysGrounded(sys', p, q') && HeadsGrounded(sys', p, q')
  {
  }

  // Nothing that matters here changes, apart from loops and live sends.
  lemma SameIsLighter(sys: System, p: PeerId, q': Peer)
    requires p in sys.peers && PeerGrounded(sys, p, sys.peers[p])
    requires var q := sys.peers[p];
             && q'.relays == q.relays && q'.coordinator == q.coordinator && q'.failing == q.failing && q'.nextId == q.nextId
             && (forall h :: h in q'.hops ==> h in q.hops && q'.hops[h] == q.hops[h])
             && (forall id :: id in q'.sends.live ==> id in q.sends.live && q'.sends.live[id] == q.sends.live[id])
    ensures Lighter(p, sys.peers[p], q')
  {
  }

  lemma SameStaysGrounded(sys: System, p: PeerId, q': Peer, messages: set<Message>)
    requires Grounded(sys) && p in sys.peers && PassesSound(sys, p, q'.passes)
    requires var q := sys.peers[p];
             && q'.relays == q.relays && q'.coordinator == q.coordinator && q'.failing == q.failing && q'.nextId == q.nextId
             && (forall h :: h in q'.hops ==> h in q.hops && q'.hops[h] == q.hops[h])
             && (forall id :: id in q'.sends.live ==> id in q.sends.live && q'.sends.live[id] == q.sends.live[id])
    requires forall m :: m in messages ==> !m.Reliable?
    ensures Grounded(With(sys, p, q', messages))
  {
    assert PeerGrounded(sys, p, sys.peers[p]);
    SameIsLighter(sys, p, q');
    LighterStaysGrounded(sys, p, q', messages);
  }

  lemma PassesOf(sys: System, p: PeerId)
    requires Grounded(sys) && p in sys.peers
    ensures PassesSound(sys, p, sys.peers[p].passes)
  {
    assert PeerGrounded(sys, p, sys.peers[p]);
  }

  // ---------- a coordinator acts ----------

  ghost predicate ForwardsHead(relays: seq<Relay>, a: Actions) {
    a.forward.Some? ==> a.forward.value in relays && IsHead(relays, a.forward.value)
  }

  lemma ActKeepsHeads(sys: System, c: PeerId, from: PeerId, a: Actions, local: Option<GroupMessageId>)
    requires c in sys.peers && PeerGrounded(sys, c, sys.peers[c]) && ForwardsHead(sys.peers[c].relays, a)
    ensures var q' := Performed(sys.peers[c], a, local);
            PeerGrounded(With(sys, c, q', Emitted(c, from, a)), c, q')
  {
    var q, q' := sys.peers[c], Performed(sys.peers[c], a, local);
    var sys' := With(sys, c, q', Emitted(c, from, a));
    assert q'.relays == q.relays && q'.failing == q.failing && q'.sends == q.sends && q'.passes == q.passes
           && q'.nextId == q.nextId && q'.coordinator == q.coordinator;
    ActHeads(sys, c, from, a, local);
    assert SourceGrounded(sys', c, q') by {
      PassesStay(sys, sys', c, q'.passes);
    }
  }

  lemma ActHeads(sys: System, c: PeerId, from: PeerId, a: Actions, local: Option<GroupMessageId>)
    requires c in sys.peers && PeerGrounded(sys, c, sys.peers[c]) && ForwardsHead(sys.peers[c].relays, a)
    ensures var q' := Performed(sys.peers[c], a, local);
            HeadsGrounded(With(sys, c, q', Emitted(c, from, a)), c, q')
  {
    var q, q' := sys.peers[c], Performed(sys.peers[c], a, local);
    var sys' := With(sys, c, q', Emitted(c, from, a));
    forall r | r in q'.relays && FinalHop(c, r) in sys'.net ensures IsHead(q'.relays, r) {
      if FinalHop(c, r) !in sys.net { assert a.forward.Some? && r.hop == a.forward.value.hop; }
    }
    forall r, h | r in q'.relays && r.op.source == c && h in q'.hops && WaitsFor(q'.hops[h], r.Key()) ensures IsHead(q'.relays, r) {
      if !(h in q.hops && q.hops[h] == q'.hops[h]) {
        assert a.forward.Some? && r.Key() == a.forward.value.Key();
        SameKeySame(q.relays, r, a.forward.value);
      }
    }
  }

  lemma SameKeySame(relays: seq<Relay>, r1: Relay, r2: Relay)
    requires UniqueKeys(relays) && r1 in relays && r2 in relays && r1.Key() == r2.Key()
    ensures r1 == r2
  {
    var i :| 0 <= i < |relays| && relays[i] == r1;
    var j :| 0 <= j < |relays| && relays[j] == r2;
    assert i == j;
  }

  lemma ActStaysGrounded(sys: System, c: PeerId, from: PeerId, a: Actions, local: Option<GroupMessageId>)
    requires Grounded(sys) && c in sys.peers && ForwardsHead(sys.peers[c].relays, a)
    ensures Grounded(With(sys, c, Performed(sys.peers[c], a, local), Emitted(c, from, a)))
  {
    assert PeerGrounded(sys, c, sys.peers[c]);
    ActKeepsHeads(sys, c, from, a, local);
    ActExtends(sys, c, from, a, local);
    OthersStayGrounded(sys, With(sys, c, Performed(sys.peers[c], a, local), Emitted(c, from, a)), c);
  }

  lemma ActExtends(sys: System, c: PeerId, from: PeerId, a: Actions, local: Option<GroupMessageId>)
    requires c in sys.peers && RelaysGrounded(sys, c, sys.peers[c]) && ForwardsHead(sys.peers[c].relays, a)
    ensures Extends(sys, With(sys, c, Performed(sys.peers[c], a, local), Emitted(c, from, a)), c)
  {
  }

  lemma MarkStaysGrounded(sys: System, c: PeerId, r: Relay)
    requires Grounded(sys) && c in sys.peers && r in sys.peers[c].relays && IsHead(sys.peers[c].relays, r)
    ensures Grounded(With(sys, c, sys.peers[c].(failing := sys.peers[c].failing + {r.hop}), {}))
  {
    var q := sys.peers[c];
    var q' := q.(failing := q.failing + {r.hop});
    var sys' := With(sys, c, q', {});
    assert PeerGrounded(sys, c, q);
    assert SourceGrounded(sys', c, q') by {
      PassesStay(sys, sys', c, q'.passes);
    }
    OthersStayGrounded(sys, sys', c);
  }

  lemma ApplyStaysGrounded(sys: System, c: PeerId, from: PeerId, outcome: Outcome, local: Option<GroupMessageId>, reach: Reach)
    requires c in sys.peers && Grounded(With(sys, c, sys.peers[c].(relays := outcome.relays), {}))
    requires outcome.result.Ok? ==> ForwardsHead(outcome.relays, outcome.result.value)
    ensures Grounded(Apply(sys, c, from, outcome, local, reach))
  {
    var released := With(sys, c, sys.peers[c].(relays := outcome.relays), {});
    var q := Releasing(sys.peers[c], outcome, reach);
    if reach == Unready && outcome.result.Ok? && outcome.result.value.forward.Some? {
      MarkStaysGrounded(released, c, outcome.result.value.forward.value);
    }
    WithTwice(sys, c, sys.peers[c].(relays := outcome.relays), q);
    assert Grounded(With(sys, c, q, {}));
    if outcome.result.Ok? {
      ActStaysGrounded(With(sys, c, q, {}), c, from, Cut(outcome.result.value, reach), local);
      WithTwice(sys, c, q, Performed(q, Cut(outcome.result.value, reach), local));
    }
  }

  // ---------- results of final hops ----------

  predicate ResultFor(cfg: Config, c: PeerId, relays: seq<Relay>, key: MessageKey, outcome: Outcome) {
    || outcome == Acknowledged(LimitsOf(cfg, c), relays, key) || outcome == Submitted(LimitsOf(cfg, c), relays, key)
    || outcome == FinalHopFailure(LimitsOf(cfg, c), relays, key, DestinationUnavailable)
    || outcome == FinalHopFailure(LimitsOf(cfg, c), relays, key, DestinationAckTimeout)
  }

  // What a result does to the table: nothing without the relay, else the relay goes and
  // the next of its pair is named.
  lemma ResultIs(cfg: Config, c: PeerId, relays: seq<Relay>, key: MessageKey, outcome: Outcome)
    requires ResultFor(cfg, c, relays, key, outcome)
    ensures Find(relays, key).None? ==> outcome == Outcome(Ok(Actions()), relays)
    ensures Find(relays, key).Some? ==> outcome.relays == Without(relays, key)
    ensures Find(relays, key).Some? && outcome.result.Ok? ==>
              && outcome.result.value.forward == Head(Without(relays, key), key.source, Find(relays, key).value.op.destination)
              && outcome.result.value.deliver.None? && outcome.result.value.sourceHopAck.None?
  {
  }

  lemma HeadMember(relays: seq<Relay>, s: PeerId, d: PeerId)
    requires Head(relays, s, d).Some?
    ensures Head(relays, s, d).value in relays && Head(relays, s, d).value.Between(s, d) && IsHead(relays, Head(relays, s, d).value)
  {
    OfPairMembers(relays, s, d);
    assert Head(relays, s, d).value in OfPair(relays, s, d);
  }

  lemma ResultForwardsHead(cfg: Config, c: PeerId, relays: seq<Relay>, key: MessageKey, outcome: Outcome)
    requires ResultFor(cfg, c, relays, key, outcome) && outcome.result.Ok?
    ensures ForwardsHead(outcome.relays, outcome.result.value)
  {
    ResultIs(cfg, c, relays, key, outcome);
    if Find(relays, key).Some? && outcome.result.value.forward.Some? {
      HeadMember(Without(relays, key), key.source, Find(relays, key).value.op.destination);
    }
  }

  lemma ResultStaysGrounded(cfg: Config, sys: System, c: PeerId, key: MessageKey, outcome: Outcome, local: Option<GroupMessageId>, reach: Reach)
    requires Grounded(sys) && c in sys.peers && ResultFor(cfg, c, sys.peers[c].relays, key, outcome)
    ensures Grounded(Apply(sys, c, c, outcome, local, reach))
  {
    var q := sys.peers[c];
    assert PeerGrounded(sys, c, q);
    ResultIs(cfg, c, q.relays, key, outcome);
    WithoutThins(q.relays, key);
    assert outcome.relays == q.relays || outcome.relays == Without(q.relays, key);
    var q' := q.(relays := outcome.relays);
    assert Lighter(c, q, q');
    LighterStaysGrounded(sys, c, q', {});
    if outcome.result.Ok? { ResultForwardsHead(cfg, c, q.relays, key, outcome); }
    ApplyStaysGrounded(sys, c, c, outcome, local, reach);
  }

  lemma FewerHopsStaysGrounded(sys: System, p: PeerId, hops: map<nat, Hop>)
    requires Grounded(sys) && p in sys.peers && forall h :: h in hops ==> h in sys.peers[p].hops && hops[h] == sys.peers[p].hops[h]
    ensures Grounded(With(sys, p, sys.peers[p].(hops := hops), {}))
  {
    PassesOf(sys, p);
    SameStaysGrounded(sys, p, sys.peers[p].(hops := hops), {});
  }

  lemma AckArrivesStaysGrounded(cfg: Config, sys: System, p: PeerId, m: Message, reach: Reach)
    requires Grounded(sys)
    ensures Grounded(AckArrivesStep(cfg, sys, p, m, reach))
  {
    if AckArrivesStep(cfg, sys, p, m, reach) != sys {
      var q := sys.peers[p];
      var hops := WithoutHop(q.hops, m.hop);
      FewerHopsStaysGrounded(sys, p, hops);
      if q.hops[m.hop].finalHop && q.coordinator == p {
        var key := q.hops[m.hop].key;
        ResultStaysGrounded(cfg, With(sys, p, q.(hops := hops), {}), p, key, Acknowledged(LimitsOf(cfg, p), q.relays, key), Some(key.id), reach);
      }
    }
  }

  lemma SourceTimedOutIsSame(q: Peer, id: GroupMessageId)
    ensures var q' := SourceTimedOut(q, id);
            && q' == q.(sends := q'.sends, handles := q'.handles)
            && (forall other :: other in q'.sends.live ==> other in q.sends.live && q'.sends.live[other] == q.sends.live[other])
  {
  }

  lemma HopTimesOutStaysGrounded(cfg: Config, sys: System, p: PeerId, hop: nat, reach: Reach)
    requires Grounded(sys)
    ensures Grounded(HopTimesOutStep(cfg, sys, p, hop, reach))
  {
    if p in sys.peers && hop in sys.peers[p].hops {
      var q := sys.peers[p];
      var key := q.hops[hop].key;
      var rest := q.(hops := WithoutHop(q.hops, hop));
      FewerHopsStaysGrounded(sys, p, rest.hops);
      if !q.hops[hop].finalHop {
        SourceTimedOutIsSame(rest, key.id);
        PassesOf(sys, p);
        SameStaysGrounded(sys, p, SourceTimedOut(rest, key.id), {});
      } else if q.coordinator == p {
        ResultStaysGrounded(cfg, With(sys, p, rest, {}), p, key,
                            FinalHopFailure(LimitsOf(cfg, p), q.relays, key, DestinationAckTimeout), Some(key.id), reach);
      }
    }
  }

  lemma ForwardResultStaysGrounded(cfg: Config, sys: System, e: Event)
    requires Grounded(sys) && (e.OrderedHopSubmitted? || e.ForwardFails?)
    ensures Grounded(Step(cfg, sys, e))
  {
    if Step(cfg, sys, e) != sys {
      match e
      case OrderedHopSubmitted(p, key, reach) =>
        ResultStaysGrounded(cfg, sys, p, key, Submitted(LimitsOf(cfg, p), sys.peers[p].relays, key), None, reach);
      case ForwardFails(p, key, reach) =>
        ResultStaysGrounded(cfg, sys, p, key, FinalHopFailure(LimitsOf(cfg, p), sys.peers[p].relays, key, DestinationUnavailable),
                            Some(key.id), reach);
    }
  }

  // ---------- admissions ----------

  lemma BindStaysGrounded(sys: System, p: PeerId, op: Operation, finalHop: bool)
    requires Grounded(sys) && p in sys.peers
    ensures Grounded(Bind(sys, op, finalHop))
  {
    var sys' := Bind(sys, op, finalHop);
    assert PeerGrounded(sys', p, sys.peers[p]) by {
      var q := sys.peers[p];
      assert PeerGrounded(sys, p, q);
      PassesStay(sys, sys', p, q.passes);
    }
    OthersStayGrounded(sys, sys', p);
  }

  // A relay under a MessageId that nobody has used, behind all others of its pair.
  lemma AppendedStaysGrounded(sys: System, c: PeerId, op: Operation)
    requires Grounded(sys) && c in sys.peers && sys.peers[c].coordinator == c && Known(sys, op) && op.destination != c
    requires op.source == c ==> op.id !in sys.peers[c].sends.live && forall h :: h in sys.peers[c].hops ==> sys.peers[c].hops[h].key != op.Key()
    requires Find(sys.peers[c].relays, op.Key()).None?
    ensures var r := Relay(op, sys.nextHop, |op.bytes|);
            Grounded(With(Bind(sys, op, true), c, sys.peers[c].(relays := sys.peers[c].relays + [r]), {}))
  {
    var r := Relay(op, sys.nextHop, |op.bytes|);
    var sys' := With(Bind(sys, op, true), c, sys.peers[c].(relays := sys.peers[c].relays + [r]), {});
    AppendedHeads(sys, c, r);
    AppendedRelays(sys, c, r);
    OthersStayGrounded(sys, sys', c);
  }

  lemma AppendedRelays(sys: System, c: PeerId, r: Relay)
    requires Grounded(sys) && c in sys.peers && sys.peers[c].coordinator == c && Known(sys, r.op) && r.op.destination != c
    requires r.op.source == c ==> r.op.id !in sys.peers[c].sends.live
    requires r.hop == sys.nextHop && Find(sys.peers[c].relays, r.Key()).None?
    ensures var q' := sys.peers[c].(relays := sys.peers[c].relays + [r]);
            var sys' := With(Bind(sys, r.op, true), c, q', {});
            RelaysGrounded(sys', c, q') && SourceGrounded(sys', c, q') && Extends(sys, sys', c)
  {
    var q := sys.peers[c];
    assert PeerGrounded(sys, c, q);
    UniqueAppended(q.relays, r);
    AppendedSource(sys, c, r);
  }

  lemma AppendedSource(sys: System, c: PeerId, r: Relay)
    requires c in sys.peers && PeerGrounded(sys, c, sys.peers[c]) && (r.op.source == c ==> r.op.id !in sys.peers[c].sends.live)
    ensures var q' := sys.peers[c].(relays := sys.peers[c].relays + [r]);
            SourceGrounded(With(Bind(sys, r.op, true), c, q', {}), c, q')
  {
    var q' := sys.peers[c].(relays := sys.peers[c].relays + [r]);
    PassesStay(sys, With(Bind(sys, r.op, true), c, q', {}), c, q'.passes);
  }

  lemma AppendedHeads(sys: System, c: PeerId, r: Relay)
    requires Grounded(sys) && c in sys.peers && r.hop == sys.nextHop && Find(sys.peers[c].relays, r.Key()).None?
    requires r.op.source == c ==> forall h :: h in sys.peers[c].hops ==> sys.peers[c].hops[h].key != r.Key()
    ensures var q' := sys.peers[c].(relays := sys.peers[c].relays + [r]);
            HeadsGrounded(With(Bind(sys, r.op, true), c, q', {}), c, q')
  {
    var q := sys.peers[c];
    assert PeerGrounded(sys, c, q);
    assert FinalHop(c, r) in sys.net ==> MessageGrounded(sys, FinalHop(c, r));
    forall x | x in q.relays && IsHead(q.relays, x) ensures IsHead(q.relays + [r], x) {
      PairAppended(q.relays, r, x.op.source, x.op.destination);
    }
  }

  lemma AdmissionIs(cfg: Config, sys: System, c: PeerId, op: Operation, sourceHop: nat, ready: bool)
    requires c in sys.peers
    ensures var outcome := AdmittedOutcome(cfg, sys, c, op, sourceHop, ready);
            var r := Relay(op, sys.nextHop, |op.bytes|);
            || (outcome.relays == sys.peers[c].relays && (outcome.result.Ok? ==> outcome.result.value.forward.None?))
            || (&& outcome.relays == sys.peers[c].relays + [r] && Find(sys.peers[c].relays, op.Key()).None? && op.destination != c
                && outcome.result.Ok?
                && outcome.result.value.forward == if OfPair(sys.peers[c].relays, op.source, op.destination) == [] then Some(r) else None)
  {
  }

  lemma AdmissionStaysGrounded(cfg: Config, sys: System, c: PeerId, from: PeerId, op: Operation, sourceHop: nat, ready: bool,
                               local: Option<GroupMessageId>, reach: Reach)
    requires Grounded(sys) && c in sys.peers && sys.peers[c].coordinator == c && Known(sys, op)
    requires op.source == c ==> op.id !in sys.peers[c].sends.live && forall h :: h in sys.peers[c].hops ==> sys.peers[c].hops[h].key != op.Key()
    ensures Grounded(Apply(Bind(sys, op, true), c, from, AdmittedOutcome(cfg, sys, c, op, sourceHop, ready), local, reach))
  {
    var q := sys.peers[c];
    var outcome := AdmittedOutcome(cfg, sys, c, op, sourceHop, ready);
    AdmissionIs(cfg, sys, c, op, sourceHop, ready);
    if outcome.relays == q.relays {
      BindStaysGrounded(sys, c, op, true);
      PassesOf(Bind(sys, op, true), c);
      SameStaysGrounded(Bind(sys, op, true), c, q.(relays := outcome.relays), {});
    } else {
      AppendedStaysGrounded(sys, c, op);
      PairAppended(q.relays, Relay(op, sys.nextHop, |op.bytes|), op.source, op.destination);
    }
    ApplyStaysGrounded(Bind(sys, op, true), c, from, outcome, local, reach);
  }

  lemma ReceiveStaysGrounded(cfg: Config, sys: System, p: PeerId, m: Message, ready: bool, reach: Reach)
    requires Grounded(sys)
    ensures Grounded(ReceiveStep(cfg, sys, p, m, ready, reach))
  {
    if ReceiveStep(cfg, sys, p, m, ready, reach) != sys {
      assert MessageGrounded(sys, m);
      if sys.peers[p].coordinator == p {
        AdmissionStaysGrounded(cfg, sys, p, m.from, m.op, m.hop, ready, None, reach);
      } else {
        DestinationStaysGrounded(sys, p, m, reach);
      }
    }
  }

  lemma DestinationStaysGrounded(sys: System, p: PeerId, m: Message, reach: Reach)
    requires Grounded(sys) && p in sys.peers && m.Reliable?
    ensures Grounded(ReceiveAsDestination(sys, p, m, reach))
  {
    var (q, acks) := AtDestination(sys.peers[p], p, m, reach);
    OnlyRouterChanges(sys.peers[p], p, m, reach);
    PassesOf(sys, p);
    SameStaysGrounded(sys, p, q, acks);
  }

  // ---------- send calls ----------

  lemma NamedIsFresh(sys: System, p: PeerId, op: Operation)
    requires p in sys.peers && PeerGrounded(sys, p, sys.peers[p]) && op.source == p && op.id == sys.peers[p].nextId
    ensures var q := sys.peers[p];
            && op.Key() !in sys.issued && op.id !in q.sends.live && (forall h :: h in q.hops ==> q.hops[h].key != op.Key())
            && (forall r :: r in q.relays ==> r.Key() != op.Key())
  {
    var q := sys.peers[p];
    assert op.Key() !in sys.issued;
    assert op.id in q.sends.live ==> Known(sys, q.sends.live[op.id]);
    forall r | r in q.relays ensures r.Key() != op.Key() { assert Known(sys, r.op); }
  }

  lemma NamedPeer(sys: System, p: PeerId, op: Operation)
    requires p in sys.peers && PeerGrounded(sys, p, sys.peers[p]) && op.source == p && op.id == sys.peers[p].nextId
    ensures var sys' := Named(sys, p, op); PeerGrounded(sys', p, sys'.peers[p]) && Extends(sys, sys', p)
  {
    NamedIsFresh(sys, p, op);
    var sys' := Named(sys, p, op);
    var q' := sys'.peers[p];
    PassesStay(sys, sys', p, q'.passes);
    assert RelaysGrounded(sys', p, q') && HeadsGrounded(sys', p, q') && SourceGrounded(sys', p, q');
  }

  lemma NamedStaysGrounded(sys: System, p: PeerId, op: Operation)
    requires Grounded(sys) && p in sys.peers && op.source == p && op.id == sys.peers[p].nextId
    ensures Grounded(Named(sys, p, op)) && Known(Named(sys, p, op), op)
    ensures var q := Named(sys, p, op).peers[p];
            && op.id !in q.sends.live && (forall h :: h in q.hops ==> q.hops[h].key != op.Key())
            && (forall r :: r in q.relays ==> r.Key() != op.Key())
  {
    assert PeerGrounded(sys, p, sys.peers[p]);
    NamedIsFresh(sys, p, op);
    NamedPeer(sys, p, op);
    OthersStayGrounded(sys, Named(sys, p, op), p);
  }

  lemma BegunStaysGrounded(sys: System, p: PeerId, op: Operation)
    requires Grounded(sys) && p in sys.peers && sys.peers[p].coordinator != p && op.source == p && Known(sys, op)
    ensures Grounded(With(sys, p, Begun(sys.peers[p], op), {}))
  {
    var q, q' := sys.peers[p], Begun(sys.peers[p], op);
    var sys' := With(sys, p, q', {});
    assert PeerGrounded(sys, p, q);
    forall k | 0 <= k < |q'.passes| ensures PassSound(sys', p, q'.passes[k]) {
      if k < |q.passes| { assert PassSound(sys, p, q.passes[k]); }
    }
    assert RelaysGrounded(sys', p, q') && HeadsGrounded(sys', p, q') && SourceGrounded(sys', p, q');
    OthersStayGrounded(sys, sys', p);
  }

  lemma CompleteStaysGrounded(sys: System, p: PeerId, id: GroupMessageId, state: SendState)
    requires Grounded(sys) && p in sys.peers
    ensures Grounded(With(sys, p, Complete(sys.peers[p], id, state), {}))
  {
    PassesOf(sys, p);
    SameStaysGrounded(sys, p, Complete(sys.peers[p], id, state), {});
  }

  lemma OriginateStaysGrounded(cfg: Config, sys: System, e: Event)
    requires Grounded(sys) && e.Originate?
    ensures Grounded(Step(cfg, sys, e))
  {
    var p := e.source;
    if Step(cfg, sys, e) != sys {
      var op := Operation(p, e.destination, sys.peers[p].nextId, e.mode, e.priority, e.bytes);
      var named := Named(sys, p, op);
      NamedStaysGrounded(sys, p, op);
      if sys.peers[p].coordinator == p {
        OwnOriginStaysGrounded(cfg, named, p, op, e.ready, e.reach);
      } else {
        MemberOrigin(cfg, named, p, op, e.ready);
        CompleteStaysGrounded(named, p, op.id, Failed);
        BegunStaysGrounded(named, p, op);
      }
    }
  }

  lemma OwnOriginStaysGrounded(cfg: Config, sys: System, p: PeerId, op: Operation, ready: bool, reach: Reach)
    requires Grounded(sys) && p in sys.peers && sys.peers[p].coordinator == p && Known(sys, op) && op.source == p
    requires op.id !in sys.peers[p].sends.live && forall h :: h in sys.peers[p].hops ==> sys.peers[p].hops[h].key != op.Key()
    ensures Grounded(OriginateAsCoordinator(cfg, sys, p, op, ready, reach))
  {
    var outcome := OwnOutcome(cfg, sys, p, op, ready);
    AdmissionStaysGrounded(cfg, sys, p, p, op, 0, ready, Some(op.id), reach);
    var applied := Apply(Bind(sys, op, true), p, p, outcome, Some(op.id), reach);
    if OriginFails(outcome, reach) { CompleteStaysGrounded(applied, p, op.id, Failed); }
  }

  // ---------- the other steps ----------

  lemma RerouteStaysGrounded(sys: System, p: PeerId, order: seq<GroupMessageId>, onlyOrdered: bool)
    requires Grounded(sys)
    ensures Grounded(RerouteBeginsStep(sys, p, order, onlyOrdered))
  {
    if RerouteBeginsStep(sys, p, order, onlyOrdered) != sys {
      RerouteTakes(sys, p, order, onlyOrdered);
      var q := sys.peers[p];
      assert PeerGrounded(sys, p, q);
      var ops := Snapshot(q.sends.live, order);
      var q' := q.(passes := q.passes + [Pass(q.coordinator, ops, false)], hops := KeptHops(q.hops, onlyOrdered));
      forall op | op in ops ensures op.source == p && Known(sys, op) {
        var i :| 0 <= i < |ops| && ops[i] == op;
        assert ops[i] == q.sends.live[order[i]];
      }
      forall k | 0 <= k < |q'.passes| ensures PassSound(sys, p, q'.passes[k]) {
        if k < |q.passes| { assert PassSound(sys, p, q.passes[k]); }
      }
      SameStaysGrounded(sys, p, q', {});
    }
  }

  lemma SubmitsStaysGrounded(sys: System, p: PeerId, k: nat, submitted: bool)
    requires Grounded(sys)
    ensures Grounded(SubmitsStep(sys, p, k, submitted))
  {
    if p in sys.peers && k < |sys.peers[p].passes| && sys.peers[p].passes[k].rest != [] {
      var q := sys.peers[p];
      var pass := q.passes[k];
      assert PeerGrounded(sys, p, q) && PassSound(sys, p, pass);
      var shorter := q.passes[k := pass.(rest := if submitted then pass.rest[1..] else [])];
      forall i | 0 <= i < |shorter| ensures PassSound(sys, p, shorter[i]) { assert PassSound(sys, p, q.passes[i]); }
      if submitted {
        SameStaysGrounded(sys, p, q.(passes := shorter), {});
        SourceHopStaysGrounded(With(sys, p, q.(passes := shorter), {}), p, pass.to, pass.rest[0]);
      } else {
        assert Abandoned(q, k).passes == shorter;
        SameStaysGrounded(sys, p, Abandoned(q, k), {});
      }
    }
  }

  lemma SourceHopStaysGrounded(sys: System, p: PeerId, to: PeerId, op: Operation)
    requires Grounded(sys) && p in sys.peers && to != p && Known(sys, op)
    ensures Grounded(SubmitSourceHop(sys, p, to, op))
  {
    assert PeerGrounded(sys, p, sys.peers[p]);
    SourceHopPeer(sys, p, to, op);
    OthersStayGrounded(sys, SubmitSourceHop(sys, p, to, op), p);
  }

  lemma SourceHopPeer(sys: System, p: PeerId, to: PeerId, op: Operation)
    requires p in sys.peers && PeerGrounded(sys, p, sys.peers[p]) && to != p && Known(sys, op)
    ensures var sys' := SubmitSourceHop(sys, p, to, op); PeerGrounded(sys', p, sys'.peers[p])
  {
    var sys' := SubmitSourceHop(sys, p, to, op);
    var q, q' := sys.peers[p], sys'.peers[p];
    PassesStay(sys, sys', p, q'.passes);
    assert RelaysGrounded(sys', p, q');
    assert HeadsGrounded(sys', p, q');
    assert SourceGrounded(sys', p, q');
  }

  lemma ResumesStaysGrounded(sys: System, p: PeerId, key: MessageKey)
    requires Grounded(sys)
    ensures Grounded(ResumesStep(sys, p, key))
  {
    if ResumesStep(sys, p, key) != sys {
      SentAgainStaysGrounded(sys, p, Find(sys.peers[p].relays, key).value);
    }
  }

  lemma SentAgainStaysGrounded(sys: System, p: PeerId, r: Relay)
    requires Grounded(sys) && p in sys.peers && r in sys.peers[p].relays && IsHead(sys.peers[p].relays, r)
    ensures Grounded(With(sys, p, sys.peers[p], {FinalHop(p, r)}))
  {
    assert PeerGrounded(sys, p, sys.peers[p]);
    SentAgainHeads(sys, p, r);
    SentAgainPeer(sys, p, r);
    OthersStayGrounded(sys, With(sys, p, sys.peers[p], {FinalHop(p, r)}), p);
  }

  lemma SentAgainPeer(sys: System, p: PeerId, r: Relay)
    requires p in sys.peers && PeerGrounded(sys, p, sys.peers[p]) && r in sys.peers[p].relays
    ensures var sys' := With(sys, p, sys.peers[p], {FinalHop(p, r)});
            RelaysGrounded(sys', p, sys.peers[p]) && SourceGrounded(sys', p, sys.peers[p]) && Extends(sys, sys', p)
  {
    PassesStay(sys, With(sys, p, sys.peers[p], {FinalHop(p, r)}), p, sys.peers[p].passes);
  }

  lemma SentAgainHeads(sys: System, p: PeerId, r: Relay)
    requires p in sys.peers && PeerGrounded(sys, p, sys.peers[p]) && r in sys.peers[p].relays && IsHead(sys.peers[p].relays, r)
    ensures HeadsGrounded(With(sys, p, sys.peers[p], {FinalHop(p, r)}), p, sys.peers[p])
  {
    var q := sys.peers[p];
    forall x | x in q.relays && FinalHop(p, x) in sys.net + {FinalHop(p, r)} ensures IsHead(q.relays, x) {
      assert FinalHop(p, x) !in sys.net ==> x.hop == r.hop;
    }
  }

  lemma CommitStaysGrounded(sys: System, p: PeerId, c: PeerId, members: set<PeerId>)
    requires Grounded(sys)
    ensures Grounded(CommitStep(sys, p, c, members))
  {
    if CommitStep(sys, p, c, members) != sys {
      PassesOf(sys, p);
      assert PeerGrounded(sys, p, sys.peers[p]);
      LighterStaysGrounded(sys, p, CommitStep(sys, p, c, members).peers[p], {});
    }
  }

  lemma DestinationGoneStaysGrounded(sys: System, p: PeerId, d: PeerId, status: RelayStatus)
    requires Grounded(sys)
    ensures Grounded(DestinationGoneStep(sys, p, d, status))
  {
    if p in sys.peers && sys.peers[p].coordinator == p {
      var q := sys.peers[p];
      PassesOf(sys, p);
      assert PeerGrounded(sys, p, q);
      OutsideThins(q.relays, OnlyTo(d));
      LighterStaysGrounded(sys, p, q.(relays := Outside(q.relays, OnlyTo(d))),
                           set r | r in Inside(q.relays, OnlyTo(d)) && r.op.source != p :: RouteStatus(p, r.op.source, SignalFor(r.op, status)));
    }
  }

  lemma SignalIsSame(sys: System, p: PeerId, m: Message, reach: Reach)
    requires p in sys.peers
    ensures var sys' := SignalArrivesStep(sys, p, m, reach);
            p in sys'.peers && (var (q, q') := (sys.peers[p], sys'.peers[p]);
            && sys' == With(sys, p, q', {}) && q' == q.(sends := q'.sends, handles := q'.handles)
            && (forall id :: id in q'.sends.live ==> id in q.sends.live && q'.sends.live[id] == q.sends.live[id]))
  {
    assert sys.peers[p := sys.peers[p]] == sys.peers;
    assert sys.net + {} == sys.net;
  }

  lemma SignalStaysGrounded(sys: System, p: PeerId, m: Message, reach: Reach)
    requires Grounded(sys) && p in sys.peers
    ensures Grounded(SignalArrivesStep(sys, p, m, reach))
  {
    PassesOf(sys, p);
    SignalIsSame(sys, p, m, reach);
    SameStaysGrounded(sys, p, SignalArrivesStep(sys, p, m, reach).peers[p], {});
  }

  lemma CancelStaysGrounded(cfg: Config, sys: System, p: PeerId, id: GroupMessageId, sessions: set<nat>)
    requires Grounded(sys)
    ensures Grounded(CancelStep(cfg, sys, p, id, sessions))
  {
    if CancelStep(cfg, sys, p, id, sessions) != sys {
      PassesOf(sys, p);
      AckSoundness.CancelledSends(sys.peers[p].sends, cfg.caps, id, sessions);
      SameStaysGrounded(sys, p, CancelStep(cfg, sys, p, id, sessions).peers[p], {});
    }
  }

  lemma HandOffStaysGrounded(sys: System, p: PeerId)
    requires Grounded(sys)
    ensures Grounded(HandOffStep(sys, p))
  {
    if HandOffStep(sys, p) != sys {
      PassesOf(sys, p);
      SameStaysGrounded(sys, p, HandOffStep(sys, p).peers[p], {});
    }
  }

  lemma QuietStaysGrounded(cfg: Config, sys: System, e: Event)
    requires Grounded(sys) && (e.ReceiveStale? || e.HopDropped? || e.Leave?)
    ensures Grounded(Step(cfg, sys, e))
  {
    match e
    case ReceiveStale(p, m) => StaleStaysGrounded(sys, p, m);
    case HopDropped(p, hop) => if p in sys.peers { FewerHopsStaysGrounded(sys, p, WithoutHop(sys.peers[p].hops, hop)); }
    case Leave(p) => LeaveStaysGrounded(sys, p);
  }

  lemma StaleStaysGrounded(sys: System, p: PeerId, m: Message)
    requires Grounded(sys)
    ensures Grounded(ReceiveStaleStep(sys, p, m))
  {
    if ReceiveStaleStep(sys, p, m) != sys {
      PassesOf(sys, p);
      SameStaysGrounded(sys, p, sys.peers[p], {GenericAck(p, m.from, m.hop)});
    }
  }

  lemma LeaveStaysGrounded(sys: System, p: PeerId)
    requires Grounded(sys)
    ensures Grounded(LeaveStep(sys, p))
  {
    if p in sys.peers {
      PassesOf(sys, p);
      SameStaysGrounded(sys, p, sys.peers[p].(open := false), {});
    }
  }

  lemma RestStaysGrounded(cfg: Config, sys: System, e: Event)
    requires Grounded(sys)
    requires || e.ReceiveStale? || e.HandOff? || e.HopDropped? || e.SignalArrives? || e.CancelSend? || e.Leave?
             || e.OrderedHopSubmitted? || e.ForwardFails?
    ensures Grounded(Step(cfg, sys, e))
  {
    if e.OrderedHopSubmitted? || e.ForwardFails? {
      ForwardResultStaysGrounded(cfg, sys, e);
    } else if e.HandOff? {
      HandOffStaysGrounded(sys, e.at);
    } else if e.SignalArrives? {
      if e.to in sys.peers { SignalStaysGrounded(sys, e.to, e.message, e.reach); }
    } else if e.CancelSend? {
      CancelStaysGrounded(cfg, sys, e.source, e.id, e.sessions);
    } else {
      QuietStaysGrounded(cfg, sys, e);
    }
  }

  lemma StepStaysGrounded(cfg: Config, sys: System, e: Event)
    requires Grounded(sys)
    ensures Grounded(Step(cfg, sys, e))
  {
    match e
    case Originate(_, _, _, _, _, _, _) => OriginateStaysGrounded(cfg, sys, e);
    case RerouteBegins(p, order, onlyOrdered) => RerouteStaysGrounded(sys, p, order, onlyOrdered);
    case Submits(p, k, submitted) => SubmitsStaysGrounded(sys, p, k, submitted);
    case Receive(p, m, ready, reach) => ReceiveStaysGrounded(cfg, sys, p, m, ready, reach);
    case AckArrives(p, m, reach) => AckArrivesStaysGrounded(cfg, sys, p, m, reach);
    case HopTimesOut(p, hop, reach) => HopTimesOutStaysGrounded(cfg, sys, p, hop, reach);
    case Resumes(p, key) => ResumesStaysGrounded(sys, p, key);
    case DestinationGone(p, d, status) => DestinationGoneStaysGrounded(sys, p, d, status);
    case Commit(p, c, members) => CommitStaysGrounded(sys, p, c, members);
    case _ => RestStaysGrounded(cfg, sys, e);
  }

  lemma {:induction false} RunStaysGrounded(cfg: Config, sys: System, events: seq<Event>)
    requires Grounded(sys)
    ensures Grounded(Run(cfg, sys, events))
  {
    if events != [] {
      RunStaysGrounded(cfg, sys, events[..|events| - 1]);
      StepStaysGrounded(cfg, Run(cfg, sys, events[..|events| - 1]), events[|events| - 1]);
    }
  }

  // In every run from the beginning, whatever is answered and whatever fails.
  lemma EveryRunGrounded(cfg: Config, start: System, events: seq<Event>)
    requires Initial(start)
    ensures Grounded(Run(cfg, start, events))
  {
    RunStaysGrounded(cfg, start, events);
  }

  // ---------- where a relay and a final hop come from ----------

  lemma ApplyRelays(sys: System, c: PeerId, from: PeerId, outcome: Outcome, local: Option<GroupMessageId>, reach: Reach)
    requires c in sys.peers
    ensures var sys' := Apply(sys, c, from, outcome, local, reach);
            c in sys'.peers && sys'.peers[c].relays == outcome.relays && sys'.peers == sys.peers[c := sys'.peers[c]]
  {
    if outcome.result.Ok? { PerformedRelays(Releasing(sys.peers[c], outcome, reach), Cut(outcome.result.value, reach), local); }
  }

  lemma PerformedRelays(q: Peer, a: Actions, local: Option<GroupMessageId>)
    ensures Performed(q, a, local).relays == q.relays
  {
  }

  lemma ReceivedRelay(cfg: Config, sys: System, c: PeerId, m: Message, ready: bool, reach: Reach, r: Relay)
    requires Grounded(sys) && c in sys.peers && c in ReceiveStep(cfg, sys, c, m, ready, reach).peers
    requires r in ReceiveStep(cfg, sys, c, m, ready, reach).peers[c].relays && r !in sys.peers[c].relays
    ensures r.hop == sys.nextHop && r.op.source != c
  {
    assert MessageGrounded(sys, m);
    if sys.peers[c].coordinator == c {
      AdmittedRelay(cfg, sys, c, m.from, m.op, m.hop, ready, None, reach, r);
    } else {
      OnlyRouterChanges(sys.peers[c], c, m, reach);
    }
  }

  lemma AdmittedRelay(cfg: Config, sys: System, c: PeerId, from: PeerId, op: Operation, sourceHop: nat, ready: bool,
                      local: Option<GroupMessageId>, reach: Reach, r: Relay)
    requires c in sys.peers
    ensures var sys' := Apply(Bind(sys, op, true), c, from, AdmittedOutcome(cfg, sys, c, op, sourceHop, ready), local, reach);
            c in sys'.peers && (r in sys'.peers[c].relays && r !in sys.peers[c].relays ==> r.hop == sys.nextHop && r.op == op)
  {
    AdmissionIs(cfg, sys, c, op, sourceHop, ready);
    ApplyRelays(Bind(sys, op, true), c, from, AdmittedOutcome(cfg, sys, c, op, sourceHop, ready), local, reach);
  }

  lemma OwnAdmittedRelay(cfg: Config, sys: System, c: PeerId, op: Operation, ready: bool, reach: Reach, r: Relay)
    requires c in sys.peers
    ensures var sys' := OriginateAsCoordinator(cfg, sys, c, op, ready, reach);
            c in sys'.peers && (r in sys'.peers[c].relays && r !in sys.peers[c].relays ==> r.hop == sys.nextHop && r.op == op)
  {
    AdmittedRelay(cfg, sys, c, c, op, 0, ready, Some(op.id), reach, r);
  }

  lemma OriginatedRelay(cfg: Config, sys: System, e: Event, r: Relay)
    requires e.Originate? && e.source in sys.peers && e.source in Step(cfg, sys, e).peers
    requires r in Step(cfg, sys, e).peers[e.source].relays && r !in sys.peers[e.source].relays
    ensures r.hop == sys.nextHop && r.op.id == sys.peers[e.source].nextId
  {
    var p := e.source;
    var op := Operation(p, e.destination, sys.peers[p].nextId, e.mode, e.priority, e.bytes);
    var named := Named(sys, p, op);
    assert named.peers[p].relays == sys.peers[p].relays && named.nextHop == sys.nextHop;
    if sys.peers[p].coordinator == p {
      OwnAdmittedRelay(cfg, named, p, op, e.ready, e.reach, r);
    } else {
      MemberOrigin(cfg, named, p, op, e.ready);
    }
  }

  lemma ResultRelays(cfg: Config, sys: System, c: PeerId, key: MessageKey, outcome: Outcome, local: Option<GroupMessageId>, reach: Reach)
    requires c in sys.peers && ResultFor(cfg, c, sys.peers[c].relays, key, outcome)
    ensures var sys' := Apply(sys, c, c, outcome, local, reach);
            c in sys'.peers && forall r :: r in sys'.peers[c].relays ==> r in sys.peers[c].relays
  {
    ApplyRelays(sys, c, c, outcome, local, reach);
    ResultIs(cfg, c, sys.peers[c].relays, key, outcome);
    WithoutMembers(sys.peers[c].relays, key);
  }

  lemma AckedRelays(cfg: Config, sys: System, c: PeerId, m: Message, reach: Reach)
    requires c in sys.peers
    ensures var sys' := AckArrivesStep(cfg, sys, c, m, reach);
            c in sys'.peers && forall r :: r in sys'.peers[c].relays ==> r in sys.peers[c].relays
  {
    if AckArrivesStep(cfg, sys, c, m, reach) != sys {
      var q := sys.peers[c];
      var key := q.hops[m.hop].key;
      ResultRelays(cfg, With(sys, c, q.(hops := WithoutHop(q.hops, m.hop)), {}), c, key, Acknowledged(LimitsOf(cfg, c), q.relays, key),
                   Some(key.id), reach);
    }
  }

  lemma TimedOutRelays(cfg: Config, sys: System, c: PeerId, hop: nat, reach: Reach)
    requires c in sys.peers
    ensures var sys' := HopTimesOutStep(cfg, sys, c, hop, reach);
            c in sys'.peers && forall r :: r in sys'.peers[c].relays ==> r in sys.peers[c].relays
  {
    if hop in sys.peers[c].hops {
      var q := sys.peers[c];
      var key := q.hops[hop].key;
      var rest := q.(hops := WithoutHop(q.hops, hop));
      if q.hops[hop].finalHop {
        ResultRelays(cfg, With(sys, c, rest, {}), c, key, FinalHopFailure(LimitsOf(cfg, c), q.relays, key, DestinationAckTimeout),
                     Some(key.id), reach);
      } else {
        SourceTimedOutIsSame(rest, key.id);
      }
    }
  }

  lemma ForwardResultRelays(cfg: Config, sys: System, e: Event, c: PeerId)
    requires c in sys.peers && Where(e) == c && (e.OrderedHopSubmitted? || e.ForwardFails?)
    ensures c in Step(cfg, sys, e).peers && forall r :: r in Step(cfg, sys, e).peers[c].relays ==> r in sys.peers[c].relays
  {
    if Step(cfg, sys, e) != sys {
      match e
      case OrderedHopSubmitted(_, key, reach) =>
        ResultRelays(cfg, sys, c, key, Submitted(LimitsOf(cfg, c), sys.peers[c].relays, key), None, reach);
      case ForwardFails(_, key, reach) =>
        ResultRelays(cfg, sys, c, key, FinalHopFailure(LimitsOf(cfg, c), sys.peers[c].relays, key, DestinationUnavailable), Some(key.id), reach);
    }
  }

  lemma OtherEventRelays(cfg: Config, sys: System, e: Event, c: PeerId)
    requires c in sys.peers && Where(e) == c
    requires Quiet(e) || e.HandOff? || e.SignalArrives? || e.CancelSend? || e.Submits?
    ensures c in Step(cfg, sys, e).peers && forall r :: r in Step(cfg, sys, e).peers[c].relays ==> r in sys.peers[c].relays
  {
    match e
    case DestinationGone(_, d, _) => RR.OutsideMembers(sys.peers[c].relays, OnlyTo(d));
    case SignalArrives(_, m, reach) => SignalIsSame(sys, c, m, reach);
    case _ => PlainEventRelays(cfg, sys, e, c);
  }

  lemma PlainEventRelays(cfg: Config, sys: System, e: Event, c: PeerId)
    requires c in sys.peers && Where(e) == c
    requires || e.RerouteBegins? || e.ReceiveStale? || e.HopDropped? || e.Resumes? || e.Commit? || e.Leave? || e.HandOff? || e.CancelSend?
             || e.Submits?
    ensures c in Step(cfg, sys, e).peers && forall r :: r in Step(cfg, sys, e).peers[c].relays ==> r in sys.peers[c].relays
  {
  }

  lemma OldRelays(cfg: Config, sys: System, e: Event, c: PeerId)
    requires c in sys.peers && Where(e) == c && !e.Originate? && !e.Receive?
    ensures c in Step(cfg, sys, e).peers && forall r :: r in Step(cfg, sys, e).peers[c].relays ==> r in sys.peers[c].relays
  {
    match e
    case AckArrives(_, m, reach) => AckedRelays(cfg, sys, c, m, reach);
    case HopTimesOut(_, hop, reach) => TimedOutRelays(cfg, sys, c, hop, reach);
    case _ => if e.OrderedHopSubmitted? || e.ForwardFails? { ForwardResultRelays(cfg, sys, e, c); } else { OtherEventRelays(cfg, sys, e, c); }
  }

  // A relay that is new at its coordinator has a new MessageId; one of the coordinator's
  // own belongs to the send call of that moment.
  lemma NewRelay(cfg: Config, sys: System, e: Event, c: PeerId, r: Relay)
    requires Grounded(sys) && c in sys.peers && Where(e) == c
    requires c in Step(cfg, sys, e).peers && r in Step(cfg, sys, e).peers[c].relays && r !in sys.peers[c].relays
    ensures r.hop == sys.nextHop && (r.op.source == c ==> e.Originate? && r.op.id == sys.peers[c].nextId)
  {
    if e.Originate? {
      OriginatedRelay(cfg, sys, e, r);
    } else if e.Receive? {
      ReceivedRelay(cfg, sys, c, e.message, e.ready, e.reach, r);
    } else {
      OldRelays(cfg, sys, e, c);
    }
  }

  lemma Elsewhere(cfg: Config, sys: System, e: Event, p: PeerId)
    requires AllIdsUsed(sys) && p in sys.peers
    ensures p in Step(cfg, sys, e).peers && sys.peers[p].nextId <= Step(cfg, sys, e).peers[p].nextId
    ensures Where(e) != p ==> Step(cfg, sys, e).peers[p] == sys.peers[p]
  {
    if Where(e) in sys.peers { StepSettles(cfg, sys, e); } else { NowhereNothing(cfg, sys, e); }
  }

  // A used identifier of a peer's own without a relay at the peer: it never gets one.
  predicate NoOwnRelay(q: Peer, p: PeerId, id: GroupMessageId) {
    id < q.nextId && forall r :: r in q.relays ==> r.Key() != MessageKey(p, id)
  }

  lemma StepKeepsNoOwnRelay(cfg: Config, sys: System, e: Event, p: PeerId, id: GroupMessageId)
    requires Grounded(sys) && AllIdsUsed(sys) && p in sys.peers && NoOwnRelay(sys.peers[p], p, id)
    ensures p in Step(cfg, sys, e).peers && NoOwnRelay(Step(cfg, sys, e).peers[p], p, id)
  {
    Elsewhere(cfg, sys, e, p);
    if Where(e) == p {
      forall r | r in Step(cfg, sys, e).peers[p].relays ensures r.Key() != MessageKey(p, id) {
        if r !in sys.peers[p].relays { NewRelay(cfg, sys, e, p, r); }
      }
    }
  }
}
