/**
 Where checkpoint replication stops short of its promises: a queue that never sends
 again, numbering that restarts, and bytes of another coordinator under an old
 publication. Each with its exact condition or its consequence for every run.
 */
module CheckpointLimits {
  import opened Types
  import opened CheckpointHandle
  import opened CheckpointQueue
  import CG = CheckpointGroup
  import opened CheckpointReplication
  import opened CheckpointFlights

  // ---------- only known publications are sent ----------

  ghost predicate SentKnown(s: System) {
    forall h :: h in s.sent ==> s.sent[h].publication in s.group.handles
  }

  // Whatever is sent in addition belongs to `pub`.
  ghost predicate SendsOnly(s: System, s': System, pub: nat) {
    forall h :: h in s'.sent ==> (h in s.sent && s'.sent[h] == s.sent[h]) || s'.sent[h].publication == pub
  }

  lemma OfferSends(s: System, p: PeerId, pub: nat, wire: seq<Byte>)
    ensures SendsOnly(s, Offer(s, p, pub, wire), pub)
  {
    var (r, q) := Publish(QueueOf(s, p), Value(pub, wire));
    if p in s.ready && r.Ok? && r.value.Some? { SendAdds(s.(queues := s.queues[p := q]), p, r.value.value, pub, wire); }
  }

  lemma {:induction false} OfferAllSends(s: System, order: seq<PeerId>, pub: nat, wire: seq<Byte>)
    ensures SendsOnly(s, OfferAll(s, order, pub, wire), pub)
  {
    if order != [] {
      OfferAllSends(s, order[..|order| - 1], pub, wire);
      OfferSends(OfferAll(s, order[..|order| - 1], pub, wire), order[|order| - 1], pub, wire);
    }
  }

  lemma AdvanceSends(s: System, p: PeerId)
    ensures forall h :: h in Advance(s, p).sent ==>
              (h in s.sent && Advance(s, p).sent[h] == s.sent[h]) || Advance(s, p).sent[h].publication in s.data
  {
    if p in s.queues {
      var (r, q) := Complete(s.queues[p]);
      if r.Ok? && r.value.Some? && r.value.value.value.publication in s.data {
        var pub := r.value.value.value.publication;
        SendAdds(s.(queues := s.queues[p := q]), p, r.value.value, pub, s.data[pub]);
      }
    }
  }

  lemma {:induction false} OfferAllHandles(s: System, order: seq<PeerId>, pub: nat, wire: seq<Byte>)
    ensures OfferAll(s, order, pub, wire).group.handles == s.group.handles
  {
    if order != [] {
      OfferAllHandles(s, order[..|order| - 1], pub, wire);
      OfferHandles(OfferAll(s, order[..|order| - 1], pub, wire), order[|order| - 1], pub, wire);
    }
  }

  lemma FinishSentKnown(s: System, h: nat, r: PeerResult)
    requires DataSound(s) && SentKnown(s) && h in s.hops
    ensures SentKnown(Finish(s, h, r))
  {
    AdvanceSends(EndHop(s, h, r), s.hops[h].peer);
    AdvanceHandles(EndHop(s, h, r), s.hops[h].peer);
    CG.FinishedKeys(s.group, s.hops[h].publication, s.hops[h].peer, r);
  }

  lemma PublishKeys(g: CG.Group, permitted: bool, requirement: CG.Requirement, members: set<PeerId>, bytes: seq<Byte>, now: nat)
    requires CG.Inv(g)
    ensures var (r, g') := CG.Publish(g, permitted, requirement, members, bytes, now);
            g.handles.Keys <= g'.handles.Keys && (r.Ok? ==> r.value in g'.handles)
  {
    CG.PublishKeeps(g, permitted, requirement, members, bytes, now);
  }

  lemma PublishSentKnown(s: System, requirement: CG.Requirement, bytes: seq<Byte>, now: nat, order: seq<PeerId>)
    requires CG.Inv(s.group) && SentKnown(s)
    ensures SentKnown(PublishStep(s, requirement, bytes, now, order))
  {
    var (r, g) := CG.Publish(s.group, s.open && s.coordinates, requirement, s.members, bytes, now);
    PublishKeys(s.group, s.open && s.coordinates, requirement, s.members, bytes, now);
    if r.Ok? {
      var s1 := s.(group := g, data := s.data[r.value := bytes], newest := r.value, published := s.published[r.value := bytes]);
      OfferAllHandles(s1, order, r.value, bytes);
      OfferAllSends(s1, order, r.value, bytes);
    }
  }

  lemma OfferLatestSentKnown(s: System, p: PeerId)
    requires CG.Inv(s.group) && SentKnown(s)
    ensures SentKnown(OfferLatestStep(s, p))
  {
    if s.group.latest.Some? && s.group.bytes.Some? {
      var pub, bytes := s.group.latest.value, s.group.bytes.value;
      var s1 := s.(data := s.data[pub := bytes], newest := if pub in s.data then s.newest else pub);
      OfferSends(s1, p, pub, bytes);
      OfferHandles(s1, p, pub, bytes);
    }
  }

  lemma QuietSentKnown(s: System, e: Event)
    requires Sound(s) && SentKnown(s)
    requires !e.Publishes? && !e.OffersLatest? && !e.AckArrives? && !e.TimesOut? && !e.SessionEnds?
    ensures SentKnown(Step(s, e))
  {
    StepForward(s, e);
    assert Step(s, e).sent == s.sent;
  }

  lemma StepSentKnown(s: System, e: Event)
    requires Sound(s) && SentKnown(s)
    ensures SentKnown(Step(s, e))
  {
    match e
    case Publishes(requirement, bytes, now, order) => PublishSentKnown(s, requirement, bytes, now, order);
    case OffersLatest(p) => OfferLatestSentKnown(s, p);
    case AckArrives(h) => if h in s.hops && h in s.answered { FinishSentKnown(s, h, Acknowledged); }
    case TimesOut(h) => if h in s.hops { FinishSentKnown(s, h, AckTimeout); }
    case SessionEnds(h) => if h in s.hops && s.hops[h].peer !in s.ready { FinishSentKnown(s, h, SessionTerminated); }
    case _ => QuietSentKnown(s, e);
  }

  // ---------- a wedged peer ----------

  ghost predicate NeverFreed(s: System, events: seq<Event>, p: PeerId) {
    forall i :: 0 <= i < |events| ==> !Frees(Run(s, events[..i]), events[i], p)
  }

  ghost predicate Reachable(s: System) { Sound(s) && Flights(s) && Lean(s) && SentKnown(s) }

  lemma {:induction false} RunReachable(s: System, events: seq<Event>)
    requires Reachable(s)
    ensures Reachable(Run(s, events))
  {
    if events != [] {
      RunReachable(s, events[..|events| - 1]);
      var before, e := Run(s, events[..|events| - 1]), events[|events| - 1];
      StepKeeps(before, e);
      StepFlies(before, e);
      StepSentKnown(before, e);
    }
  }

  // Whatever happens short of the peer leaving, authority being lost or the group closing:
  // nothing is ever sent to the peer again.
  lemma {:induction false} WedgedForever(s: System, events: seq<Event>, p: PeerId)
    requires Reachable(s) && Wedged(s, p) && NeverFreed(s, events, p)
    ensures StillWedged(s, Run(s, events), p)
  {
    if events != [] {
      var front, n := events[..|events| - 1], |events| - 1;
      forall i | 0 <= i < |front| ensures !Frees(Run(s, front[..i]), front[i], p) {
        assert front[..i] == events[..i];
        assert !Frees(Run(s, events[..i]), events[i], p);
      }
      WedgedForever(s, front, p);
      RunReachable(s, front);
      assert !Frees(Run(s, events[..n]), events[n], p);
      StepStuck(Run(s, front), events[n], p);
    }
  }

  // No publication accepted afterwards that needs the peer can become durable.
  lemma WedgedBlocksDurability(s: System, events: seq<Event>, p: PeerId, pub: nat)
    requires Reachable(s) && Wedged(s, p) && NeverFreed(s, events, p)
    requires pub !in s.group.handles && pub in Run(s, events).group.handles
    ensures p in Run(s, events).group.handles[pub].results ==> Run(s, events).group.handles[pub].status != Durable
  {
    var end := Run(s, events);
    WedgedForever(s, events, p);
    RunReachable(s, events);
    assert Consistent(end.group.handles[pub]);
    assert !AnsweredBy(end, pub, p) by {
      forall h | h in end.answered && h in end.sent && end.sent[h].peer == p ensures end.sent[h].publication != pub {
        assert s.sent[h] == end.sent[h];
      }
    }
  }

  // How a peer gets there: its session ends while a newer checkpoint waits.
  const INTO_WEDGE: seq<Event> := [
    Publishes(CG.AllMembers, [], 0, [1]),
    Publishes(CG.AllMembers, [7], 0, [1]),
    BecomesUnready(1),
    SessionEnds(0)]

  function OnePeer(): System { Start({1}, {1}, true) }

  const WAITING := Handle(map[1 := Pending], Undecided, 0)

  lemma AcceptedWaiting()
    ensures Accepted({1}) == WAITING
  {
    assert 1 in {1};
    assert Fresh({1}).results == WAITING.results;
  }

  function FirstGroup(flying: map<nat, set<PeerId>>): CG.Group { CG.Group(map[1 := WAITING], Some(1), Some([]), flying, 2, [0]) }

  function FirstFlies(): System {
    OnePeer().(group := FirstGroup(map[1 := {1}]),
               data := map[1 := []], newest := 1, queues := map[1 := Queue(Some(Transfer(1, Value(1, []))), None, 2, false)],
               hops := map[0 := Hop(1, 1, 1, [])], nextHop := 1, sent := map[0 := Hop(1, 1, 1, [])], published := map[1 := []])
  }

  function SecondWaits(): System {
    FirstFlies().(group := CG.Group(map[1 := WAITING, 2 := WAITING], Some(2), Some([7]), map[1 := {1}], 3, [0, 0]),
                  data := map[1 := [], 2 := [7]], newest := 2, published := map[1 := [], 2 := [7]],
                  queues := map[1 := Queue(Some(Transfer(1, Value(1, []))), Some(Value(2, [7])), 2, false)])
  }

  lemma FirstPublished()
    ensures CG.Publish(OnePeer().group, true, CG.AllMembers, {1}, [], 0) == (Ok(1), FirstGroup(map[]))
  {
    AcceptedWaiting();
    var g := CG.Publish(OnePeer().group, true, CG.AllMembers, {1}, [], 0).1;
    assert g.handles == FirstGroup(map[]).handles;
    assert g.times == [0];
  }

  lemma FirstStep()
    ensures Step(OnePeer(), INTO_WEDGE[0]) == FirstFlies()
  {
    FirstPublished();
    var s1 := OnePeer().(group := FirstGroup(map[]), data := map[1 := []], newest := 1, published := map[1 := []]);
    assert CG.InFlightOf(s1.group, 1) + {1} == {1};
    assert CG.Started(s1.group, 1, 1).inFlight == map[1 := {1}];
    assert OfferAll(s1, [1], 1, []) == Offer(s1, 1, 1, []);
    assert Offer(s1, 1, 1, []) == FirstFlies();
    assert Prune(FirstFlies()) == FirstFlies();
  }

  lemma SecondPublished()
    ensures CG.Publish(FirstFlies().group, true, CG.AllMembers, {1}, [7], 0) == (Ok(2), SecondWaits().group)
  {
    AcceptedWaiting();
    var g := FirstFlies().group;
    assert CG.Recent([0], 0) == [0];
    assert CG.Settled(WAITING, {}, Superseded) == WAITING;
    assert WAITING.results.Keys - CG.InFlightOf(g, 1) == {};
    assert CG.AfterSupersession(g).handles == g.handles;
    var g' := CG.Publish(g, true, CG.AllMembers, {1}, [7], 0).1;
    assert g'.handles == SecondWaits().group.handles;
    assert g'.times == [0, 0];
  }

  lemma SecondStep()
    ensures Step(FirstFlies(), INTO_WEDGE[1]) == SecondWaits()
  {
    SecondPublished();
    var s1 := FirstFlies().(group := SecondWaits().group, data := map[1 := [], 2 := [7]], newest := 2,
                            published := map[1 := [], 2 := [7]]);
    assert OfferAll(s1, [1], 2, [7]) == Offer(s1, 1, 2, [7]);
    assert Offer(s1, 1, 2, [7]) == SecondWaits();
    assert Prune(SecondWaits()) == SecondWaits();
  }

  lemma Extends(events: seq<Event>, n: nat, before: System, after: System)
    requires n < |events| && Run(OnePeer(), events[..n]) == before && Step(before, events[n]) == after
    ensures Run(OnePeer(), events[..n + 1]) == after
  {
    assert events[..n + 1][..n] == events[..n];
  }

  lemma RunToUnready()
    ensures Run(OnePeer(), INTO_WEDGE[..3]) == SecondWaits().(ready := {})
  {
    FirstStep();
    SecondStep();
    Extends(INTO_WEDGE, 0, OnePeer(), FirstFlies());
    Extends(INTO_WEDGE, 1, FirstFlies(), SecondWaits());
    Extends(INTO_WEDGE, 2, SecondWaits(), SecondWaits().(ready := {}));
  }

  // The session of the only peer ends while the second checkpoint waits behind the first:
  // the coordinator's queue for that peer is wedged, whenever the peer comes back.
  lemma SessionEndWedges()
    ensures Wedged(Run(OnePeer(), INTO_WEDGE), 1)
  {
    RunToUnready();
    EndWedges();
    Extends(INTO_WEDGE, 3, SecondWaits().(ready := {}), Step(SecondWaits().(ready := {}), SessionEnds(0)));
    assert INTO_WEDGE[..4] == INTO_WEDGE;
  }

  lemma EndWedges()
    ensures Wedged(Step(SecondWaits().(ready := {}), SessionEnds(0)), 1)
  {
    UnreadyFlies();
    EndedUnready(SecondWaits().(ready := {}), 0);
  }

  lemma StartReachable(members: set<PeerId>, ready: set<PeerId>, coordinates: bool)
    ensures Reachable(Start(members, ready, coordinates))
  {
  }

  lemma UnreadyFlies()
    ensures Flights(SecondWaits().(ready := {}))
  {
    RunToUnready();
    StartReachable({1}, {1}, true);
    RunReachable(OnePeer(), INTO_WEDGE[..3]);
  }

  lemma EndedUnready(s: System, h: nat)
    requires Flights(s) && h in s.hops && s.hops[h].peer !in s.ready
    requires !s.queues[s.hops[h].peer].exhausted && s.queues[s.hops[h].peer].pending.Some?
    ensures Wedged(Step(s, SessionEnds(h)), s.hops[h].peer)
  {
    EndingWedgesIff(s, h, SessionTerminated);
  }

  // ---------- numbering ----------

  // The sequence number the peer's queue uses next, once an operation has ended.
  function NextNumber(s: System, p: PeerId): nat {
    var q := QueueOf(s, p);
    if q.inFlight.Some? then q.inFlight.value.sequence else q.next
  }

  // The numbers of one peer go on without a gap exactly when a newer value was waiting;
  // an idle queue is thrown away, and the next operation to that peer carries 1 again.
  lemma NumberingGoesOnIff(s: System, h: nat, r: PeerResult)
    requires Flights(s) && h in s.hops && !s.queues[s.hops[h].peer].exhausted
    ensures var p := s.hops[h].peer;
            && (NextNumber(Finish(s, h, r), p) == s.hops[h].sequence + 1 <==> s.queues[p].pending.Some?)
            && (s.queues[p].pending.None? ==> NextNumber(Finish(s, h, r), p) == 1 && p !in Finish(s, h, r).queues)
  {
    var p := s.hops[h].peer;
    var s1 := EndHop(s, h, r);
    var (res, q) := Complete(s.queues[p]);
    if res.Ok? && res.value.Some? && res.value.value.value.publication in s1.data {
      SendAdds(s1.(queues := s1.queues[p := q]), p, res.value.value, res.value.value.value.publication,
               s1.data[res.value.value.value.publication]);
    }
  }

  // ---------- another coordinator's bytes ----------

  function AwayAndBack(s: System, foreign: seq<Byte>): System {
    Step(Step(Step(s, LosesAuthority), Receives(foreign)), GainsAuthority)
  }

  // A coordinator that lost authority, took over another coordinator's checkpoint and
  // regained authority offers those bytes to a returning peer under its own old
  // publication, whose completion has long fired: no result can change any more.
  lemma OffersForeignBytes(s: System, p: PeerId, foreign: seq<Byte>)
    requires CG.Inv(s.group) && s.coordinates && s.open && s.group.latest.Some? && p in s.members && p in s.ready
    requires |foreign| <= MAX_CHECKPOINT_BYTES
    ensures var s' := Step(AwayAndBack(s, foreign), OffersLatest(p));
            var pub := s.group.latest.value;
            && s.nextHop in s'.hops && s'.hops[s.nextHop] == Hop(p, pub, 1, foreign)
            && pub in s'.group.handles && s'.group.handles[pub].Terminal()
  {
    CG.FailAllKeeps(s.group, AuthorityLost);
    BackHolds(s, foreign);
    OffersWhatItHolds(AwayAndBack(s, foreign), p, s.group.latest.value, foreign);
  }

  lemma BackHolds(s: System, foreign: seq<Byte>)
    requires s.coordinates && s.open
    ensures AwayAndBack(s, foreign)
            == Cleared(s).(group := CG.FailAll(s.group, AuthorityLost).(bytes := Some(foreign)))
  {
  }

  // With nothing retained, a ready member is sent whatever the session holds.
  lemma OffersWhatItHolds(s: System, p: PeerId, pub: nat, bytes: seq<Byte>)
    requires s.coordinates && s.open && p in s.members && p in s.ready && s.queues == map[] && |bytes| <= MAX_CHECKPOINT_BYTES
    requires s.group.latest == Some(pub) && s.group.bytes == Some(bytes)
    ensures var s' := Step(s, OffersLatest(p));
            && s'.group.handles == s.group.handles && s.nextHop in s'.hops && s'.hops[s.nextHop] == Hop(p, pub, 1, bytes)
  {
    var s1 := s.(data := s.data[pub := bytes], newest := if pub in s.data then s.newest else pub);
    OfferHandles(s1, p, pub, bytes);
    SendAdds(s1.(queues := s1.queues[p := Publish(EMPTY, Value(pub, bytes)).1]), p, Transfer(1, Value(pub, bytes)), pub, bytes);
  }

  // ---------- exactly when the offered bytes are the published ones ----------

  predicate Accepts(s: System, e: Event) {
    && e.Publishes? && Enumerates(e.order, s.members)
    && CG.Publish(s.group, s.open && s.coordinates, e.requirement, s.members, e.bytes, e.now).0.Ok?
  }

  // The bytes of another coordinator's checkpoint that the session took over last, since
  // its own latest accepted publication.
  function TakenSince(start: System, events: seq<Event>): Option<seq<Byte>> {
    if events == [] then None
    else
      var front, e := events[..|events| - 1], events[|events| - 1];
      var s := Run(start, front);
      if Accepts(s, e) then None
      else if e.Receives? && s.open && !s.coordinates then Some(e.bytes)
      else TakenSince(start, front)
  }

  // What the session holds: its latest publication, or what it took over since.
  predicate HoldsSince(s: System, taken: Option<seq<Byte>>) {
    s.group.latest.Some? ==>
      && s.group.latest.value in s.published
      && s.group.bytes == (if taken.Some? then taken else Some(s.published[s.group.latest.value]))
  }

  // Only an accepted publication or a checkpoint taken over changes what the session holds.
  predicate SameHoldings(s: System, s': System) {
    s'.group.latest == s.group.latest && s'.group.bytes == s.group.bytes && s'.published == s.published
  }

  lemma SendHoldings(s: System, p: PeerId, t: Transfer, pub: nat, wire: seq<Byte>)
    ensures SameHoldings(s, Send(s, p, t, pub, wire))
  {
  }

  lemma OfferHoldings(s: System, p: PeerId, pub: nat, wire: seq<Byte>)
    ensures SameHoldings(s, Offer(s, p, pub, wire))
  {
    var (r, q) := Publish(QueueOf(s, p), Value(pub, wire));
    if p in s.ready && r.Ok? && r.value.Some? { SendHoldings(s.(queues := s.queues[p := q]), p, r.value.value, pub, wire); }
  }

  lemma {:induction false} OfferAllHoldings(s: System, order: seq<PeerId>, pub: nat, wire: seq<Byte>)
    ensures SameHoldings(s, OfferAll(s, order, pub, wire))
  {
    if order != [] {
      OfferAllHoldings(s, order[..|order| - 1], pub, wire);
      OfferHoldings(OfferAll(s, order[..|order| - 1], pub, wire), order[|order| - 1], pub, wire);
    }
  }

  lemma FinishHoldings(s: System, h: nat, r: PeerResult)
    requires h in s.hops
    ensures SameHoldings(s, Finish(s, h, r))
  {
    var (s1, p) := (EndHop(s, h, r), s.hops[h].peer);
    CG.FinishedKeys(s.group, s.hops[h].publication, p, r);
    if p in s1.queues {
      var (res, q) := Complete(s1.queues[p]);
      if res.Ok? && res.value.Some? && res.value.value.value.publication in s1.data {
        var pub := res.value.value.value.publication;
        SendHoldings(s1.(queues := s1.queues[p := q]), p, res.value.value, pub, s1.data[pub]);
      }
    }
  }

  lemma OtherHoldings(s: System, e: Event)
    requires !e.Publishes? && !e.Receives?
    ensures SameHoldings(s, Step(s, e))
  {
    match e
    case OffersLatest(p) =>
      if s.group.latest.Some? && s.group.bytes.Some? {
        var pub, bytes := s.group.latest.value, s.group.bytes.value;
        OfferHoldings(s.(data := s.data[pub := bytes], newest := if pub in s.data then s.newest else pub), p, pub, bytes);
      }
    case AckArrives(h) => if h in s.hops && h in s.answered { FinishHoldings(s, h, Acknowledged); }
    case TimesOut(h) => if h in s.hops { FinishHoldings(s, h, AckTimeout); }
    case SessionEnds(h) => if h in s.hops && s.hops[h].peer !in s.ready { FinishHoldings(s, h, SessionTerminated); }
    case _ =>
  }

  lemma AcceptedHoldings(s: System, e: Event)
    requires Accepts(s, e)
    ensures HoldsSince(Step(s, e), None)
  {
    var (r, g) := CG.Publish(s.group, s.open && s.coordinates, e.requirement, s.members, e.bytes, e.now);
    var s1 := s.(group := g, data := s.data[r.value := e.bytes], newest := r.value, published := s.published[r.value := e.bytes]);
    OfferAllHoldings(s1, e.order, r.value, e.bytes);
  }

  lemma RefusedHoldings(s: System, e: Event)
    requires e.Publishes? && !Accepts(s, e) && CG.Inv(s.group)
    ensures SameHoldings(s, Step(s, e))
  {
    CG.PublishKeeps(s.group, s.open && s.coordinates, e.requirement, s.members, e.bytes, e.now);
  }

  lemma {:induction false} RunHolds(start: System, events: seq<Event>)
    requires Sound(start) && start.group.latest.None?
    ensures HoldsSince(Run(start, events), TakenSince(start, events))
  {
    if events != [] {
      var front, e := events[..|events| - 1], events[|events| - 1];
      var s := Run(start, front);
      RunHolds(start, front);
      RunSound(start, front);
      if Accepts(s, e) {
        AcceptedHoldings(s, e);
      } else if e.Publishes? {
        RefusedHoldings(s, e);
      } else if !e.Receives? {
        OtherHoldings(s, e);
      }
    }
  }

  lemma OfferedHop(s: System, p: PeerId)
    requires s.nextHop !in s.hops && s.nextHop in Step(s, OffersLatest(p)).hops
    ensures s.group.latest.Some? && s.group.bytes.Some?
    ensures var hop := Step(s, OffersLatest(p)).hops[s.nextHop];
            hop.peer == p && hop.publication == s.group.latest.value && hop.wire == s.group.bytes.value
  {
    var pub, bytes := s.group.latest.value, s.group.bytes.value;
    var s1 := s.(data := s.data[pub := bytes], newest := if pub in s.data then s.newest else pub);
    var (r, q) := Publish(QueueOf(s1, p), Value(pub, bytes));
    if p in s.ready && r.Ok? && r.value.Some? { SendAdds(s1.(queues := s1.queues[p := q]), p, r.value.value, pub, bytes); }
  }

  // In every run, when a peer that becomes ready is sent the retained checkpoint: the
  // bytes are those of the publication they go out under exactly when the session has
  // taken over nothing since, or last took over those very bytes; and when they are not,
  // that publication is already complete, so no result of it can change.
  lemma OffersPublishedIff(members: set<PeerId>, ready: set<PeerId>, coordinates: bool, events: seq<Event>, p: PeerId)
    requires var s := Run(Start(members, ready, coordinates), events); s.nextHop in Step(s, OffersLatest(p)).hops
    ensures var s := Run(Start(members, ready, coordinates), events);
            var hop := Step(s, OffersLatest(p)).hops[s.nextHop];
            var taken := TakenSince(Start(members, ready, coordinates), events);
            && hop.peer == p && s.group.latest == Some(hop.publication) && hop.publication in s.published
            && (hop.wire == s.published[hop.publication] <==> s.group.bytes == Some(s.published[hop.publication]))
            && (hop.wire == s.published[hop.publication] <==> taken.None? || taken.value == s.published[hop.publication])
            && hop.publication in s.group.handles
            && (hop.wire != s.published[hop.publication] ==> s.group.handles[hop.publication].Terminal())
  {
    var start := Start(members, ready, coordinates);
    var s := Run(start, events);
    RunHolds(start, events);
    RunSound(start, events);
    assert s.nextHop !in s.hops;
    OfferedHop(s, p);
    assert RightBytes(s, s.group.latest.value, s.group.bytes.value);
  }
}
