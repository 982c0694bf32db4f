/**
 Operations in flight in a run of CheckpointReplication: what the coordinator retains,
 when a peer's queue stops for good, and how a peer's operations are numbered.
 */
module CheckpointFlights {
  import opened Types
  import opened CheckpointHandle
  import opened CheckpointQueue
  import CG = CheckpointGroup
  import opened CheckpointReplication

  // ---------- the invariant ----------

  // Every waited-for operation is what its peer's queue has in flight, one per peer.
  ghost predicate HopsFly(s: System) {
    && (forall h :: h in s.hops ==>
          && h < s.nextHop && s.hops[h].peer in s.queues && s.queues[s.hops[h].peer].inFlight.Some?
          && s.queues[s.hops[h].peer].inFlight.value.value.publication == s.hops[h].publication
          && s.queues[s.hops[h].peer].inFlight.value.sequence == s.hops[h].sequence
          && s.hops[h].publication in s.data)
    && (forall h1, h2 :: h1 in s.hops && h2 in s.hops && s.hops[h1].peer == s.hops[h2].peer ==> h1 == h2)
  }

  // Something waits only behind something in flight, which carries the last number used.
  predicate Shaped(q: Queue) {
    && (q.pending.Some? ==> q.inFlight.Some?)
    && (q.inFlight.Some? ==> 1 <= q.inFlight.value.sequence && (!q.exhausted ==> q.next == q.inFlight.value.sequence + 1))
    && 1 <= q.next
  }

  ghost predicate QueuesShaped(s: System) { forall p :: p in s.queues ==> Shaped(s.queues[p]) }

  // A publication counts a peer as in flight only while an operation is waited for.
  ghost predicate FlightsBacked(s: System) {
    forall pub, p :: p in CG.InFlightOf(s.group, pub) ==> Flying(s, pub, p)
  }

  ghost predicate Flying(s: System, pub: nat, p: PeerId) {
    exists h :: h in s.hops && s.hops[h].peer == p && s.hops[h].publication == pub
  }

  ghost predicate NewestKept(s: System) {
    s.data != map[] ==> s.newest in s.data && s.group.latest == Some(s.newest)
  }

  ghost predicate Lean(s: System) { forall pub :: pub in s.data ==> Needed(s, pub) }

  ghost predicate Flights(s: System) { HopsFly(s) && QueuesShaped(s) && FlightsBacked(s) && NewestKept(s) }

  // ---------- single steps of the machinery ----------

  lemma SendFlies(s: System, p: PeerId, t: Transfer, pub: nat, wire: seq<Byte>)
    requires Flights(s) && pub in s.data && (forall h :: h in s.hops ==> s.hops[h].peer != p)
    requires p in s.queues && s.queues[p].inFlight == Some(t) && t.value.publication == pub
    ensures Flights(Send(s, p, t, pub, wire))
  {
    if p in s.ready {
      var s' := Send(s, p, t, pub, wire);
      forall pub', q | q in CG.InFlightOf(s'.group, pub') ensures Flying(s', pub', q) {
        if q in CG.InFlightOf(s.group, pub') {
          assert Flying(s, pub', q);
          var h :| h in s.hops && s.hops[h].peer == q && s.hops[h].publication == pub';
          assert h in s'.hops && s'.hops[h] == s.hops[h];
        } else {
          assert s.nextHop in s'.hops;
        }
      }
    }
  }

  // A queue that nobody waits on may change.
  lemma IdleQueueFlies(s: System, p: PeerId, q: Queue)
    requires Flights(s) && Shaped(q)
    requires forall h :: h in s.hops && s.hops[h].peer == p ==> p in s.queues && q.inFlight == s.queues[p].inFlight
    ensures Flights(s.(queues := s.queues[p := q]))
  {
    var s' := s.(queues := s.queues[p := q]);
    forall pub, q | q in CG.InFlightOf(s'.group, pub) ensures Flying(s', pub, q) { assert Flying(s, pub, q); }
  }

  lemma OfferFlies(s: System, p: PeerId, pub: nat, wire: seq<Byte>)
    requires Flights(s) && pub in s.data
    ensures Flights(Offer(s, p, pub, wire))
    ensures Offer(s, p, pub, wire).data == s.data && Offer(s, p, pub, wire).newest == s.newest
  {
    if p in s.ready {
      var (r, q) := Publish(QueueOf(s, p), Value(pub, wire));
      assert p !in s.queues ==> QueueOf(s, p) == EMPTY;
      IdleQueueFlies(s, p, q);
      if r.Ok? && r.value.Some? { SendFlies(s.(queues := s.queues[p := q]), p, r.value.value, pub, wire); }
    }
  }

  lemma {:induction false} OfferAllFlies(s: System, order: seq<PeerId>, pub: nat, wire: seq<Byte>)
    requires Flights(s) && pub in s.data
    ensures Flights(OfferAll(s, order, pub, wire))
    ensures OfferAll(s, order, pub, wire).data == s.data && OfferAll(s, order, pub, wire).newest == s.newest
  {
    if order != [] {
      OfferAllFlies(s, order[..|order| - 1], pub, wire);
      OfferFlies(OfferAll(s, order[..|order| - 1], pub, wire), order[|order| - 1], pub, wire);
    }
  }

  lemma PruneFlies(s: System)
    requires Flights(s)
    ensures Flights(Prune(s)) && Lean(Prune(s))
  {
    var s' := Prune(s);
    forall pub, p | p in CG.InFlightOf(s'.group, pub) ensures Flying(s', pub, p) { assert Flying(s, pub, p); }
    forall h | h in s'.hops ensures s'.hops[h].publication in s'.data { assert Needed(s, s.hops[h].publication); }
    if s.data != map[] { assert Needed(s, s.newest) && s.newest in s'.data; }
  }

  lemma AdvanceFlies(s: System, p: PeerId)
    requires Flights(s) && (forall h :: h in s.hops ==> s.hops[h].peer != p)
    ensures Flights(Advance(s, p))
  {
    if p in s.queues {
      var (r, q) := Complete(s.queues[p]);
      if r == Ok(None) {
        IdleQueueGone(s, p);
      } else {
        IdleQueueFlies(s, p, q);
        if r.Ok? && r.value.value.value.publication in s.data {
          SendFlies(s.(queues := s.queues[p := q]), p, r.value.value, r.value.value.value.publication,
                    s.data[r.value.value.value.publication]);
        }
      }
    }
  }

  lemma IdleQueueGone(s: System, p: PeerId)
    requires Flights(s) && (forall h :: h in s.hops ==> s.hops[h].peer != p)
    ensures Flights(s.(queues := s.queues - {p}))
  {
    var s' := s.(queues := s.queues - {p});
    forall pub, q | q in CG.InFlightOf(s'.group, pub) ensures Flying(s', pub, q) { assert Flying(s, pub, q); }
  }

  lemma EndHopFlies(s: System, h: nat, r: PeerResult)
    requires Flights(s) && h in s.hops
    ensures Flights(EndHop(s, h, r)) && forall k :: k in EndHop(s, h, r).hops ==> s.hops[k].peer != s.hops[h].peer
  {
    var s' := EndHop(s, h, r);
    CG.FinishedKeys(s.group, s.hops[h].publication, s.hops[h].peer, r);
    forall pub, p | p in CG.InFlightOf(s'.group, pub) ensures Flying(s', pub, p) {
      assert p in CG.InFlightOf(s.group, pub);
      assert Flying(s, pub, p);
      var k :| k in s.hops && s.hops[k].peer == p && s.hops[k].publication == pub;
      assert k != h by { LandedLeft(s.group, s.hops[h].publication, s.hops[h].peer, r); }
      assert k in s'.hops;
    }
  }

  lemma LandedLeft(g: CG.Group, pub: nat, p: PeerId, r: PeerResult)
    ensures p !in CG.InFlightOf(CG.Finished(g, pub, p, r), pub)
  {
  }

  lemma FinishFlies(s: System, h: nat, r: PeerResult)
    requires Flights(s) && h in s.hops
    ensures Flights(Finish(s, h, r)) && Lean(Finish(s, h, r))
  {
    EndHopFlies(s, h, r);
    AdvanceFlies(EndHop(s, h, r), s.hops[h].peer);
    PruneFlies(Advance(EndHop(s, h, r), s.hops[h].peer));
  }

  // ---------- every event ----------

  lemma PublishStepFlies(s: System, requirement: CG.Requirement, bytes: seq<Byte>, now: nat, order: seq<PeerId>)
    requires Flights(s) && Lean(s) && CG.Inv(s.group)
    ensures Flights(PublishStep(s, requirement, bytes, now, order)) && Lean(PublishStep(s, requirement, bytes, now, order))
  {
    var (r, g) := CG.Publish(s.group, s.open && s.coordinates, requirement, s.members, bytes, now);
    CG.PublishKeeps(s.group, s.open && s.coordinates, requirement, s.members, bytes, now);
    PublishLands(s.group, s.open && s.coordinates, requirement, s.members, bytes, now);
    if r.Ok? {
      var s1 := s.(group := g, data := s.data[r.value := bytes], newest := r.value, published := s.published[r.value := bytes]);
      forall pub, p | p in CG.InFlightOf(s1.group, pub) ensures Flying(s1, pub, p) { assert Flying(s, pub, p); }
      assert Flights(s1);
      OfferAllFlies(s1, order, r.value, bytes);
      PruneFlies(OfferAll(s1, order, r.value, bytes));
    } else {
      var s1 := s.(group := g);
      forall pub, p | p in CG.InFlightOf(s1.group, pub) ensures Flying(s1, pub, p) { assert Flying(s, pub, p); }
      LeanStays(s, s1);
    }
  }

  lemma PublishLands(g: CG.Group, permitted: bool, requirement: CG.Requirement, members: set<PeerId>, bytes: seq<Byte>, now: nat)
    ensures forall pub, p :: p in CG.InFlightOf(CG.Publish(g, permitted, requirement, members, bytes, now).1, pub) ==>
              p in CG.InFlightOf(g, pub)
  {
  }

  lemma LeanStays(s: System, s': System)
    requires Lean(s) && s'.data == s.data && s'.newest == s.newest && s'.hops == s.hops && s'.queues == s.queues
    ensures Lean(s')
  {
    forall pub | pub in s'.data ensures Needed(s', pub) { assert Needed(s, pub); }
  }

  lemma NeededStays(s: System, s': System, pub: nat)
    requires Needed(s, pub) && s'.data == s.data && s'.newest == s.newest
    requires forall h :: h in s.hops ==> h in s'.hops && s'.hops[h] == s.hops[h]
    requires forall q :: q in s.queues && s.queues[q].inFlight.Some? ==> q in s'.queues && s'.queues[q].inFlight == s.queues[q].inFlight
    ensures Needed(s', pub)
  {
  }

  lemma OfferKeepsLean(s: System, p: PeerId, pub: nat, wire: seq<Byte>)
    requires HopsFly(s) && Lean(s)
    ensures Lean(Offer(s, p, pub, wire))
  {
    var s' := Offer(s, p, pub, wire);
    OfferAdds(s, p, pub, wire);
    forall other | other in s'.data ensures Needed(s', other) { NeededStays(s, s', other); }
  }

  // What sending one operation changes, apart from the group's own record.
  lemma SendAdds(s: System, p: PeerId, t: Transfer, pub: nat, wire: seq<Byte>)
    ensures var s' := Send(s, p, t, pub, wire);
            var hop := Hop(p, pub, t.sequence, wire);
            && s' == s.(group := s'.group, hops := s'.hops, sent := s'.sent, nextHop := s'.nextHop)
            && (if p in s.ready then s'.hops == s.hops[s.nextHop := hop] && s'.sent == s.sent[s.nextHop := hop]
                else s'.hops == s.hops && s'.sent == s.sent)
  {
  }

  lemma OfferAdds(s: System, p: PeerId, pub: nat, wire: seq<Byte>)
    requires HopsFly(s)
    ensures var s' := Offer(s, p, pub, wire);
            && s'.data == s.data && s'.newest == s.newest
            && (forall h :: h in s.hops ==> h in s'.hops && s'.hops[h] == s.hops[h])
            && (forall q :: q in s.queues && s.queues[q].inFlight.Some? ==> q in s'.queues && s'.queues[q].inFlight == s.queues[q].inFlight)
  {
    var (r, q) := Publish(QueueOf(s, p), Value(pub, wire));
    if p in s.ready && r.Ok? && r.value.Some? { SendAdds(s.(queues := s.queues[p := q]), p, r.value.value, pub, wire); }
  }

  lemma OfferLatestFlies(s: System, p: PeerId)
    requires Flights(s) && Lean(s)
    ensures Flights(OfferLatestStep(s, p)) && Lean(OfferLatestStep(s, p))
  {
    if OfferLatestStep(s, p) != s && s.group.latest.Some? && s.group.bytes.Some? {
      var pub, bytes := s.group.latest.value, s.group.bytes.value;
      var s1 := s.(data := s.data[pub := bytes], newest := if pub in s.data then s.newest else pub);
      RetainFlies(s, pub, bytes);
      OfferFlies(s1, p, pub, bytes);
      OfferKeepsLean(s1, p, pub, bytes);
    }
  }

  lemma RetainFlies(s: System, pub: nat, bytes: seq<Byte>)
    requires Flights(s) && Lean(s) && s.group.latest == Some(pub)
    ensures var s1 := s.(data := s.data[pub := bytes], newest := if pub in s.data then s.newest else pub);
            Flights(s1) && Lean(s1)
  {
    var s1 := s.(data := s.data[pub := bytes], newest := if pub in s.data then s.newest else pub);
    assert s1.newest == pub;
    forall other, p | p in CG.InFlightOf(s1.group, other) ensures Flying(s1, other, p) { assert Flying(s, other, p); }
    forall other | other in s1.data ensures Needed(s1, other) { if other != pub { assert Needed(s, other); } }
  }

  lemma LeaveFlies(s: System, p: PeerId)
    requires Flights(s) && CG.Inv(s.group)
    ensures Flights(LeaveStep(s, p)) && (p in s.members ==> Lean(LeaveStep(s, p)))
  {
    if p in s.members {
      var g := LeftGroup(s, p);
      var s1 := s.(members := s.members - {p}, group := g, queues := s.queues - {p},
                   hops := map h | h in s.hops && s.hops[h].peer != p :: s.hops[h]);
      LeftLands(s, p);
      forall pub, q | q in CG.InFlightOf(g, pub) ensures Flying(s1, pub, q) {
        assert Flying(s, pub, q);
        var h :| h in s.hops && s.hops[h].peer == q && s.hops[h].publication == pub;
        assert h in s1.hops;
      }
      PruneFlies(s1);
    }
  }

  lemma LeftLands(s: System, p: PeerId)
    ensures forall pub, q :: q in CG.InFlightOf(LeftGroup(s, p), pub) ==> q != p && q in CG.InFlightOf(s.group, pub)
    ensures LeftGroup(s, p).latest == s.group.latest
  {
    var gone := CG.PeerGone(s.group, p);
    assert forall pub, q :: q in CG.InFlightOf(gone, pub) ==> q != p && q in CG.InFlightOf(s.group, pub);
    if QueueOf(s, p).inFlight.Some? { CG.FinishedKeys(gone, QueueOf(s, p).inFlight.value.value.publication, p, PeerLeft); }
  }

  lemma QuietFlies(s: System, e: Event)
    requires Flights(s) && Lean(s)
    requires e.BecomesReady? || e.BecomesUnready? || e.Answers? || e.Joins? || e.GainsAuthority? || e.Receives?
    ensures Flights(Step(s, e)) && Lean(Step(s, e))
  {
    var s' := Step(s, e);
    forall pub, p | p in CG.InFlightOf(s'.group, pub) ensures Flying(s', pub, p) { assert Flying(s, pub, p); }
    LeanStays(s, s');
  }

  lemma StepFlies(s: System, e: Event)
    requires Flights(s) && Lean(s) && CG.Inv(s.group)
    ensures Flights(Step(s, e)) && Lean(Step(s, e))
  {
    match e
    case Publishes(requirement, bytes, now, order) => PublishStepFlies(s, requirement, bytes, now, order);
    case OffersLatest(p) => OfferLatestFlies(s, p);
    case AckArrives(h) => if h in s.hops && h in s.answered { FinishFlies(s, h, Acknowledged); }
    case TimesOut(h) => if h in s.hops { FinishFlies(s, h, AckTimeout); }
    case SessionEnds(h) => if h in s.hops && s.hops[h].peer !in s.ready { FinishFlies(s, h, SessionTerminated); }
    case Leaves(p) => LeaveFlies(s, p);
    case LosesAuthority =>
    case Closes =>
    case _ => QuietFlies(s, e);
  }

  lemma {:induction false} RunFlies(members: set<PeerId>, ready: set<PeerId>, coordinates: bool, events: seq<Event>)
    ensures var end := Run(Start(members, ready, coordinates), events); Sound(end) && Flights(end) && Lean(end)
  {
    if events != [] {
      var front := events[..|events| - 1];
      RunFlies(members, ready, coordinates, front);
      StepKeeps(Run(Start(members, ready, coordinates), front), events[|events| - 1]);
      StepFlies(Run(Start(members, ready, coordinates), front), events[|events| - 1]);
    }
  }

  // ---------- what is retained ----------

  // After every event the coordinator retains the latest publication and those that some
  // peer's queue still has in flight, nothing else; an undecided publication is the
  // latest, or an operation of it is waited for by a peer that has not decided; and each
  // peer has at most one operation waited for and one value pending.
  lemma LiveRecordsBounded(members: set<PeerId>, ready: set<PeerId>, coordinates: bool, events: seq<Event>, pub: nat)
    ensures var end := Run(Start(members, ready, coordinates), events);
            && (pub in end.data ==>
                  end.group.latest == Some(pub)
                  || exists p :: p in end.queues && end.queues[p].inFlight.Some? && end.queues[p].inFlight.value.value.publication == pub)
            && (pub in end.group.handles && !end.group.handles[pub].Terminal() && end.group.latest != Some(pub) ==>
                  exists h :: h in end.hops && end.hops[h].publication == pub && end.group.handles[pub].Waits(end.hops[h].peer))
            && (forall h1, h2 :: h1 in end.hops && h2 in end.hops && end.hops[h1].peer == end.hops[h2].peer ==> h1 == h2)
  {
    RunFlies(members, ready, coordinates, events);
    var end := Run(Start(members, ready, coordinates), events);
    if pub in end.data { RetainedInFlight(end, pub); }
    if pub in end.group.handles && !end.group.handles[pub].Terminal() && end.group.latest != Some(pub) {
      assert CG.WaitsOnlyInFlight(end.group, pub);
      assert Consistent(end.group.handles[pub]);
      var p :| p in end.group.handles[pub].results && end.group.handles[pub].results[p] == Pending;
      assert Flying(end, pub, p);
    }
  }

  lemma RetainedInFlight(s: System, pub: nat)
    requires Flights(s) && Lean(s) && pub in s.data
    ensures s.group.latest == Some(pub)
            || exists p :: p in s.queues && s.queues[p].inFlight.Some? && s.queues[p].inFlight.value.value.publication == pub
  {
    assert Needed(s, pub);
    if pub != s.newest && exists h :: h in s.hops && s.hops[h].publication == pub {
      var h :| h in s.hops && s.hops[h].publication == pub;
      assert s.hops[h].peer in s.queues;
    }
  }

  // ---------- a queue that stops for good ----------

  // The queue believes an operation is in flight, but no operation is waited for.
  ghost predicate Wedged(s: System, p: PeerId) {
    p in s.queues && s.queues[p].inFlight.Some? && forall h :: h in s.hops ==> s.hops[h].peer != p
  }

  // Ending an operation wedges the peer's queue exactly when a newer value waits and it
  // cannot go out now: the peer is not ready, or the value's publication was let go.
  lemma EndingWedgesIff(s: System, h: nat, r: PeerResult)
    requires Flights(s) && h in s.hops && !s.queues[s.hops[h].peer].exhausted
    ensures var p := s.hops[h].peer;
            Wedged(Finish(s, h, r), p)
            <==> s.queues[p].pending.Some? && (p !in s.ready || s.queues[p].pending.value.publication !in s.data)
  {
    var p := s.hops[h].peer;
    var s1 := EndHop(s, h, r);
    EndHopFlies(s, h, r);
    var (res, q) := Complete(s.queues[p]);
    if s.queues[p].pending.Some? && p in s.ready && s.queues[p].pending.value.publication in s.data {
      assert s1.nextHop in Finish(s, h, r).hops && Finish(s, h, r).hops[s1.nextHop].peer == p;
    }
  }

  predicate Frees(s: System, e: Event, p: PeerId) {
    || (e.Leaves? && e.peer == p && p in s.members)
    || (e.LosesAuthority? && s.coordinates)
    || (e.Closes? && s.open)
  }

  // Nothing more is sent to the peer, and its queue stays wedged.
  ghost predicate StillWedged(s: System, s': System, p: PeerId) {
    Wedged(s', p) && (forall h :: h in s'.sent && s'.sent[h].peer == p ==> h in s.sent && s'.sent[h] == s.sent[h])
  }

  lemma SendStuck(s: System, q: PeerId, t: Transfer, pub: nat, wire: seq<Byte>, p: PeerId)
    requires Wedged(s, p) && q != p
    ensures StillWedged(s, Send(s, q, t, pub, wire), p)
  {
    SendAdds(s, q, t, pub, wire);
  }

  lemma OfferStuck(s: System, q: PeerId, pub: nat, wire: seq<Byte>, p: PeerId)
    requires Wedged(s, p)
    ensures StillWedged(s, Offer(s, q, pub, wire), p)
  {
    var (r, queue) := Publish(QueueOf(s, q), Value(pub, wire));
    if q != p && q in s.ready && r.Ok? && r.value.Some? {
      SendStuck(s.(queues := s.queues[q := queue]), q, r.value.value, pub, wire, p);
    }
  }

  lemma {:induction false} OfferAllStuck(s: System, order: seq<PeerId>, pub: nat, wire: seq<Byte>, p: PeerId)
    requires Wedged(s, p) && Flights(s) && pub in s.data
    ensures StillWedged(s, OfferAll(s, order, pub, wire), p)
  {
    if order != [] {
      var front := order[..|order| - 1];
      OfferAllStuck(s, front, pub, wire, p);
      OfferAllFlies(s, front, pub, wire);
      OfferStuck(OfferAll(s, front, pub, wire), order[|order| - 1], pub, wire, p);
    }
  }

  lemma AdvanceStuck(s: System, q: PeerId, p: PeerId)
    requires Wedged(s, p) && q != p
    ensures StillWedged(s, Advance(s, q), p)
  {
    if q in s.queues {
      var (r, queue) := Complete(s.queues[q]);
      if r.Ok? && r.value.Some? && r.value.value.value.publication in s.data {
        var pub := r.value.value.value.publication;
        SendStuck(s.(queues := s.queues[q := queue]), q, r.value.value, pub, s.data[pub], p);
      }
    }
  }

  lemma FinishStuck(s: System, h: nat, r: PeerResult, p: PeerId)
    requires Wedged(s, p) && h in s.hops
    ensures StillWedged(s, Finish(s, h, r), p)
  {
    AdvanceStuck(EndHop(s, h, r), s.hops[h].peer, p);
  }

  lemma QuietStuck(s: System, e: Event, p: PeerId)
    requires Wedged(s, p) && !Frees(s, e, p)
    requires !e.Publishes? && !e.OffersLatest? && !e.AckArrives? && !e.TimesOut? && !e.SessionEnds?
    ensures StillWedged(s, Step(s, e), p)
  {
  }

  lemma StepStuck(s: System, e: Event, p: PeerId)
    requires Wedged(s, p) && Flights(s) && CG.Inv(s.group) && !Frees(s, e, p)
    ensures StillWedged(s, Step(s, e), p)
  {
    match e
    case Publishes(requirement, bytes, now, order) =>
      if Enumerates(order, s.members) { PublishStuck(s, requirement, bytes, now, order, p); }
    case OffersLatest(q) => OfferLatestStuck(s, q, p);
    case AckArrives(h) => if h in s.hops && h in s.answered { FinishStuck(s, h, Acknowledged, p); }
    case TimesOut(h) => if h in s.hops { FinishStuck(s, h, AckTimeout, p); }
    case SessionEnds(h) => if h in s.hops && s.hops[h].peer !in s.ready { FinishStuck(s, h, SessionTerminated, p); }
    case _ => QuietStuck(s, e, p);
  }

  lemma PublishStuck(s: System, requirement: CG.Requirement, bytes: seq<Byte>, now: nat, order: seq<PeerId>, p: PeerId)
    requires Wedged(s, p) && Flights(s) && CG.Inv(s.group)
    ensures StillWedged(s, PublishStep(s, requirement, bytes, now, order), p)
  {
    var (r, g) := CG.Publish(s.group, s.open && s.coordinates, requirement, s.members, bytes, now);
    CG.PublishKeeps(s.group, s.open && s.coordinates, requirement, s.members, bytes, now);
    PublishLands(s.group, s.open && s.coordinates, requirement, s.members, bytes, now);
    if r.Ok? {
      var s1 := s.(group := g, data := s.data[r.value := bytes], newest := r.value, published := s.published[r.value := bytes]);
      forall pub, p | p in CG.InFlightOf(s1.group, pub) ensures Flying(s1, pub, p) { assert Flying(s, pub, p); }
      OfferAllStuck(s1, order, r.value, bytes, p);
    }
  }

  lemma OfferLatestStuck(s: System, q: PeerId, p: PeerId)
    requires Wedged(s, p) && Flights(s)
    ensures StillWedged(s, OfferLatestStep(s, q), p)
  {
    if OfferLatestStep(s, q) != s && s.group.latest.Some? && s.group.bytes.Some? {
      var pub, bytes := s.group.latest.value, s.group.bytes.value;
      var s1 := s.(data := s.data[pub := bytes], newest := if pub in s.data then s.newest else pub);
      forall other, q | q in CG.InFlightOf(s1.group, other) ensures Flying(s1, other, q) { assert Flying(s, other, q); }
      assert Flights(s1);
      OfferStuck(s1, q, pub, bytes, p);
    }
  }

  // ---------- a publication reaches every ready member ----------

  // The bytes are on their way to the peer under this publication, or wait as the newest
  // value behind the operation in flight.
  ghost predicate Underway(was: Queue, s: System, p: PeerId, pub: nat, wire: seq<Byte>) {
    && p in s.queues
    && (was.inFlight.Some? ==> s.queues[p] == was.(pending := Some(Value(pub, wire))))
    && (was.inFlight.None? && !was.exhausted ==>
          && s.queues[p].inFlight == Some(Transfer(was.next, Value(pub, wire)))
          && exists h :: h in s.hops && s.hops[h] == Hop(p, pub, was.next, wire))
  }

  lemma OfferReaches(s: System, p: PeerId, pub: nat, wire: seq<Byte>)
    requires p in s.ready && |wire| <= MAX_CHECKPOINT_BYTES
    ensures Underway(QueueOf(s, p), Offer(s, p, pub, wire), p, pub, wire)
  {
    var (r, q) := Publish(QueueOf(s, p), Value(pub, wire));
    if r.Ok? && r.value.Some? {
      var s1 := s.(queues := s.queues[p := q]);
      SendAdds(s1, p, r.value.value, pub, wire);
      assert s.nextHop in Send(s1, p, r.value.value, pub, wire).hops;
    }
  }

  lemma OfferElsewhere(s: System, other: PeerId, p: PeerId, pub: nat, wire: seq<Byte>)
    requires HopsFly(s) && p != other
    ensures QueueOf(Offer(s, other, pub, wire), p) == QueueOf(s, p) && (p in s.queues <==> p in Offer(s, other, pub, wire).queues)
    ensures Offer(s, other, pub, wire).ready == s.ready
    ensures forall h :: h in s.hops ==> h in Offer(s, other, pub, wire).hops && Offer(s, other, pub, wire).hops[h] == s.hops[h]
  {
    OfferAdds(s, other, pub, wire);
  }

  lemma {:induction false} OfferAllReaches(s: System, order: seq<PeerId>, pub: nat, wire: seq<Byte>, p: PeerId)
    requires Flights(s) && pub in s.data && p in s.ready && |wire| <= MAX_CHECKPOINT_BYTES
    requires forall i, j :: 0 <= i < j < |order| ==> order[i] != order[j]
    ensures OfferAll(s, order, pub, wire).ready == s.ready
    ensures p !in order ==> QueueOf(OfferAll(s, order, pub, wire), p) == QueueOf(s, p)
    ensures p in order ==> Underway(QueueOf(s, p), OfferAll(s, order, pub, wire), p, pub, wire)
  {
    if order != [] {
      var front, last := order[..|order| - 1], order[|order| - 1];
      var mid := OfferAll(s, front, pub, wire);
      assert order == front + [last];
      OfferAllReaches(s, front, pub, wire, p);
      OfferAllFlies(s, front, pub, wire);
      if last == p { OfferReaches(mid, p, pub, wire); } else { OfferElsewhere(mid, last, p, pub, wire); }
      assert Offer(mid, last, pub, wire).ready == mid.ready;
    }
  }

  // In every run: an accepted publication goes out to every ready member whose queue is
  // idle, and waits as the newest value for every ready member whose queue is busy.
  lemma PublicationGoesOut(members: set<PeerId>, ready: set<PeerId>, coordinates: bool, events: seq<Event>, e: Event, p: PeerId)
    requires var s := Run(Start(members, ready, coordinates), events);
             e.Publishes? && s.group.nextId in Step(s, e).group.handles && p in s.members && p in s.ready
    ensures var s := Run(Start(members, ready, coordinates), events);
            Underway(QueueOf(s, p), Step(s, e), p, s.group.nextId, e.bytes)
  {
    var s := Run(Start(members, ready, coordinates), events);
    RunFlies(members, ready, coordinates, events);
    PublicationStarts(s, e.requirement, e.bytes, e.now, e.order);
    PublishReaches(s, e.requirement, e.bytes, e.now, e.order, p);
  }

  lemma PublishReaches(s: System, requirement: CG.Requirement, bytes: seq<Byte>, now: nat, order: seq<PeerId>, p: PeerId)
    requires Sound(s) && Flights(s) && Enumerates(order, s.members) && p in s.members && p in s.ready
    requires s.group.nextId in PublishStep(s, requirement, bytes, now, order).group.handles
    ensures Underway(QueueOf(s, p), PublishStep(s, requirement, bytes, now, order), p, s.group.nextId, bytes)
  {
    var (r, g) := CG.Publish(s.group, s.open && s.coordinates, requirement, s.members, bytes, now);
    CG.PublicationDecided(s.group, s.open && s.coordinates, requirement, s.members, bytes, now);
    if r.Ok? {
      var s1 := s.(group := g, data := s.data[r.value := bytes], newest := r.value, published := s.published[r.value := bytes]);
      PublishLands(s.group, s.open && s.coordinates, requirement, s.members, bytes, now);
      PublishLatest(s.group, s.open && s.coordinates, requirement, s.members, bytes, now);
      RecordedFlies(s, s1);
      assert p in order;
      OfferAllReaches(s1, order, r.value, bytes, p);
    }
  }

  lemma PublishLatest(g: CG.Group, permitted: bool, requirement: CG.Requirement, members: set<PeerId>, bytes: seq<Byte>, now: nat)
    requires CG.Inv(g)
    ensures var (r, g') := CG.Publish(g, permitted, requirement, members, bytes, now); r.Ok? ==> g'.latest == Some(r.value)
  {
    CG.PublishKeeps(g, permitted, requirement, members, bytes, now);
  }

  lemma RecordedFlies(s: System, s1: System)
    requires Flights(s) && s1.hops == s.hops && s1.queues == s.queues && s1.nextHop == s.nextHop
    requires (forall pub :: pub in s.data ==> pub in s1.data) && s1.newest in s1.data && s1.group.latest == Some(s1.newest)
    requires forall pub, p :: p in CG.InFlightOf(s1.group, pub) ==> p in CG.InFlightOf(s.group, pub)
    ensures Flights(s1)
  {
    forall pub, q | q in CG.InFlightOf(s1.group, pub) ensures Flying(s1, pub, q) { assert Flying(s, pub, q); }
  }

  // The waiting value goes out under the next number, if the peer is ready and the
  // publication is retained; without one the queue is gone.
  ghost predicate GoesOn(s: System, s': System, p: PeerId)
    requires p in s.queues
  {
    var q := s.queues[p];
    && (q.pending.None? ==> s'.queues == s.queues - {p} && s'.hops == s.hops)
    && (q.pending.Some? && !q.exhausted && p in s.ready && q.pending.value.publication in s.data ==>
          var (t, pub) := (Transfer(q.next, q.pending.value), q.pending.value.publication);
          && p in s'.queues && s'.queues[p].inFlight == Some(t) && s'.queues[p].pending == None
          && s'.hops == s.hops[s.nextHop := Hop(p, pub, q.next, s.data[pub])])
  }

  lemma AdvanceGoesOn(s: System, p: PeerId)
    requires p in s.queues
    ensures GoesOn(s, Advance(s, p), p)
  {
    var (r, q) := Complete(s.queues[p]);
    if r.Ok? && r.value.Some? && r.value.value.value.publication in s.data {
      var pub := r.value.value.value.publication;
      SendAdds(s.(queues := s.queues[p := q]), p, r.value.value, pub, s.data[pub]);
    }
  }

  // When an operation ends it is waited for no longer, and its peer's queue goes on.
  lemma PromotionGoesOut(s: System, h: nat, r: PeerResult)
    requires HopsFly(s) && h in s.hops
    ensures var (s', rest, p) := (Finish(s, h, r), EndHop(s, h, r), s.hops[h].peer);
            && rest.hops == s.hops - {h} && rest.queues == s.queues && rest.data == s.data && rest.ready == s.ready && rest.nextHop == s.nextHop
            && p in rest.queues && GoesOn(rest, s', p)
  {
    AdvanceGoesOn(EndHop(s, h, r), s.hops[h].peer);
  }

  // ---------- who is superseded ----------

  // A publication that is undecided tracks every operation of it that is waited for.
  predicate Tracks(g: CG.Group, hop: Hop) {
    hop.publication in g.handles && !g.handles[hop.publication].Terminal() && hop.peer in g.handles[hop.publication].results ==>
      hop.peer in CG.InFlightOf(g, hop.publication)
  }

  ghost predicate Tracked(s: System) { forall h :: h in s.hops ==> Tracks(s.group, s.hops[h]) }

  // Tracking is kept where handles only move forward and nothing of the peer lands.
  lemma TracksOn(g: CG.Group, g': CG.Group, hop: Hop)
    requires Tracks(g, hop)
    requires hop.publication in g'.handles ==>
               hop.publication in g.handles && CG.Forward(g.handles[hop.publication], g'.handles[hop.publication])
    requires hop.peer in CG.InFlightOf(g, hop.publication) ==> hop.peer in CG.InFlightOf(g', hop.publication)
    ensures Tracks(g', hop)
  {
  }

  lemma SendTracks(s: System, p: PeerId, t: Transfer, pub: nat, wire: seq<Byte>)
    requires Tracked(s)
    ensures Tracked(Send(s, p, t, pub, wire))
  {
    if p in s.ready {
      CG.TrackingDecided(s.group, pub, p, Superseded);
      SendAdds(s, p, t, pub, wire);
    }
  }

  lemma OfferTracks(s: System, p: PeerId, pub: nat, wire: seq<Byte>)
    requires Tracked(s)
    ensures Tracked(Offer(s, p, pub, wire))
  {
    var (r, q) := Publish(QueueOf(s, p), Value(pub, wire));
    if p in s.ready && r.Ok? && r.value.Some? { SendTracks(s.(queues := s.queues[p := q]), p, r.value.value, pub, wire); }
  }

  lemma {:induction false} OfferAllTracks(s: System, order: seq<PeerId>, pub: nat, wire: seq<Byte>)
    requires Tracked(s)
    ensures Tracked(OfferAll(s, order, pub, wire))
  {
    if order != [] {
      OfferAllTracks(s, order[..|order| - 1], pub, wire);
      OfferTracks(OfferAll(s, order[..|order| - 1], pub, wire), order[|order| - 1], pub, wire);
    }
  }

  lemma AdvanceTracks(s: System, p: PeerId)
    requires Tracked(s)
    ensures Tracked(Advance(s, p))
  {
    if p in s.queues {
      var (r, q) := Complete(s.queues[p]);
      if r.Ok? && r.value.Some? && r.value.value.value.publication in s.data {
        var pub := r.value.value.value.publication;
        SendTracks(s.(queues := s.queues[p := q]), p, r.value.value, pub, s.data[pub]);
      }
    }
  }

  lemma EndHopTracks(s: System, h: nat, r: PeerResult)
    requires Tracked(s) && HopsFly(s) && CG.Inv(s.group) && h in s.hops && r != Pending
    ensures Tracked(EndHop(s, h, r))
  {
    var (pub, p, g) := (s.hops[h].publication, s.hops[h].peer, CG.Finished(s.group, s.hops[h].publication, s.hops[h].peer, r));
    CG.FinishedKeeps(s.group, pub, p, r);
    CG.TrackingDecided(s.group, pub, p, r);
    forall k | k in s.hops && k != h ensures Tracks(g, s.hops[k]) {
      assert s.hops[k].peer != p;
      CG.FinishedKeys(s.group, pub, p, r);
      TracksOn(s.group, g, s.hops[k]);
    }
  }

  lemma FinishTracks(s: System, h: nat, r: PeerResult)
    requires Tracked(s) && HopsFly(s) && CG.Inv(s.group) && h in s.hops && r != Pending
    ensures Tracked(Finish(s, h, r))
  {
    EndHopTracks(s, h, r);
    AdvanceTracks(EndHop(s, h, r), s.hops[h].peer);
  }

  // Superseding changes nothing of what is in flight.
  lemma PublishKeepsFlying(g: CG.Group, permitted: bool, requirement: CG.Requirement, members: set<PeerId>, bytes: seq<Byte>, now: nat, pub: nat)
    ensures CG.InFlightOf(CG.Publish(g, permitted, requirement, members, bytes, now).1, pub) == CG.InFlightOf(g, pub)
  {
  }

  lemma PublishTracks(s: System, requirement: CG.Requirement, bytes: seq<Byte>, now: nat, order: seq<PeerId>)
    requires Tracked(s) && Sound(s)
    ensures Tracked(PublishStep(s, requirement, bytes, now, order))
  {
    var (r, g) := CG.Publish(s.group, s.open && s.coordinates, requirement, s.members, bytes, now);
    CG.PublishKeeps(s.group, s.open && s.coordinates, requirement, s.members, bytes, now);
    forall h | h in s.hops ensures Tracks(g, s.hops[h]) {
      PublishKeepsFlying(s.group, s.open && s.coordinates, requirement, s.members, bytes, now, s.hops[h].publication);
      assert RightBytes(s, s.hops[h].publication, s.hops[h].wire);
      TracksOn(s.group, g, s.hops[h]);
    }
    if r.Ok? {
      OfferAllTracks(s.(group := g, data := s.data[r.value := bytes], newest := r.value, published := s.published[r.value := bytes]),
                     order, r.value, bytes);
    }
  }

  lemma LeaveTracks(s: System, p: PeerId)
    requires Tracked(s) && Sound(s)
    ensures Tracked(LeaveStep(s, p))
  {
    if p in s.members {
      LeftGroupKeeps(s, p);
      forall h | h in s.hops && s.hops[h].peer != p ensures Tracks(LeftGroup(s, p), s.hops[h]) {
        LeftFlying(s, p, s.hops[h].publication, s.hops[h].peer);
        assert RightBytes(s, s.hops[h].publication, s.hops[h].wire);
        TracksOn(s.group, LeftGroup(s, p), s.hops[h]);
      }
    }
  }

  lemma LeftFlying(s: System, p: PeerId, pub: nat, q: PeerId)
    requires q != p
    ensures q in CG.InFlightOf(LeftGroup(s, p), pub) <==> q in CG.InFlightOf(s.group, pub)
  {
    var gone, left := CG.PeerGone(s.group, p), QueueOf(s, p);
    assert q in CG.InFlightOf(gone, pub) <==> q in CG.InFlightOf(s.group, pub);
    if left.inFlight.Some? { CG.TrackingDecided(gone, left.inFlight.value.value.publication, p, PeerLeft); }
  }

  lemma QuietTracks(s: System, e: Event)
    requires Tracked(s) && !e.Publishes? && !e.OffersLatest? && !e.AckArrives? && !e.TimesOut? && !e.SessionEnds? && !e.Leaves?
    ensures Tracked(Step(s, e))
  {
    var s' := Step(s, e);
    assert s'.hops == map[] || (s'.hops == s.hops && s'.group.handles == s.group.handles && s'.group.inFlight == s.group.inFlight);
    forall h | h in s'.hops ensures Tracks(s'.group, s'.hops[h]) { assert Tracks(s.group, s.hops[h]); }
  }

  lemma StepTracks(s: System, e: Event)
    requires Tracked(s) && Sound(s) && HopsFly(s)
    ensures Tracked(Step(s, e))
  {
    match e
    case Publishes(requirement, bytes, now, order) =>
      if Enumerates(order, s.members) { PublishTracks(s, requirement, bytes, now, order); }
    case OffersLatest(p) =>
      if OfferLatestStep(s, p) != s && s.group.latest.Some? && s.group.bytes.Some? {
        var pub, bytes := s.group.latest.value, s.group.bytes.value;
        OfferTracks(s.(data := s.data[pub := bytes], newest := if pub in s.data then s.newest else pub), p, pub, bytes);
      }
    case AckArrives(h) => if h in s.hops && h in s.answered { FinishTracks(s, h, Acknowledged); }
    case TimesOut(h) => if h in s.hops { FinishTracks(s, h, AckTimeout); }
    case SessionEnds(h) => if h in s.hops && s.hops[h].peer !in s.ready { FinishTracks(s, h, SessionTerminated); }
    case Leaves(p) => LeaveTracks(s, p);
    case _ => QuietTracks(s, e);
  }

  lemma {:induction false} RunTracks(members: set<PeerId>, ready: set<PeerId>, coordinates: bool, events: seq<Event>)
    ensures Tracked(Run(Start(members, ready, coordinates), events))
  {
    if events != [] {
      var front := events[..|events| - 1];
      RunTracks(members, ready, coordinates, front);
      RunFlies(members, ready, coordinates, front);
      StepTracks(Run(Start(members, ready, coordinates), front), events[|events| - 1]);
    }
  }

  // In every run: a newer publication supersedes a waiting peer of the latest one exactly
  // when no operation of that publication to that peer is waited for; while one is, its
  // acknowledgement can still count.
  lemma SupersededIff(members: set<PeerId>, ready: set<PeerId>, coordinates: bool, events: seq<Event>, e: Event, pub: nat, p: PeerId)
    requires var s := Run(Start(members, ready, coordinates), events);
             && e.Publishes? && s.group.nextId in Step(s, e).group.handles
             && s.group.latest == Some(pub) && pub in s.group.handles && s.group.handles[pub].Waits(p)
    ensures var (s, s') := (Run(Start(members, ready, coordinates), events), Step(Run(Start(members, ready, coordinates), events), e));
            var waited := exists h :: h in s.hops && s.hops[h].peer == p && s.hops[h].publication == pub;
            && pub in s'.group.handles && p in s'.group.handles[pub].results
            && s'.group.handles[pub].results[p] == (if waited then Pending else Superseded)
  {
    var s := Run(Start(members, ready, coordinates), events);
    RunTracks(members, ready, coordinates, events);
    RunFlies(members, ready, coordinates, events);
    assert Consistent(s.group.handles[pub]);
    if p in CG.InFlightOf(s.group, pub) { assert Flying(s, pub, p); }
    SupersededBy(s, e, pub, p);
  }

  lemma SupersededBy(s: System, e: Event, pub: nat, p: PeerId)
    requires Sound(s) && e.Publishes? && s.group.nextId in Step(s, e).group.handles
    requires s.group.latest == Some(pub) && pub in s.group.handles && s.group.handles[pub].Waits(p)
    ensures var s' := Step(s, e);
            && pub in s'.group.handles && p in s'.group.handles[pub].results
            && s'.group.handles[pub].results[p] == (if p in CG.InFlightOf(s.group, pub) then Pending else Superseded)
  {
    var (r, g) := CG.Publish(s.group, s.open && s.coordinates, e.requirement, s.members, e.bytes, e.now);
    if r.Ok? {
      CG.SupersessionDecided(s.group, s.open && s.coordinates, e.requirement, s.members, e.bytes, e.now, pub, p);
      OfferAllTimes(s.(group := g, data := s.data[r.value := e.bytes], newest := r.value, published := s.published[r.value := e.bytes]),
                    e.order, r.value, e.bytes);
    }
  }
}
