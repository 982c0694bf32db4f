/**
 Checkpoint replication from one coordinator to any number of peers: publications, one
 latest-value queue per peer, operations in flight, peers that answer operations, and
 every order of acknowledgement, timeout, newer publication, leave,
 loss of a session, loss of authority and close.
 */
module CheckpointReplication {
  import opened Types
  import opened CheckpointHandle
  import opened CheckpointQueue
  import CG = CheckpointGroup

  // ---------- state ----------

  // One checkpoint operation: what goes to one peer under one pairwise MessageId.
  datatype Hop = Hop(peer: PeerId, publication: nat, sequence: nat, wire: seq<Byte>)

  datatype System = System(
    group: CG.Group,
    members: set<PeerId>,                // committed members other than the local peer
    coordinates: bool,
    open: bool,
    ready: set<PeerId>,                  // peers whose connection is READY
    data: map<nat, seq<Byte>>,           // retained publications
    newest: nat,                         // the retained publication inserted last
    queues: map<PeerId, Queue>,
    hops: map<nat, Hop>,                 // operations waiting for their generic ACK
    nextHop: nat,
    sent: map<nat, Hop>,                 // history: every operation ever submitted
    answered: set<nat>,                  // history: operations their peer answered with a generic ACK
    published: map<nat, seq<Byte>>)      // history: the bytes of every publication

  function Start(members: set<PeerId>, ready: set<PeerId>, coordinates: bool): System {
    System(CG.Group(map[], None, None, map[], 1, []), members, coordinates, true, ready, map[], 0, map[], map[], 0,
           map[], {}, map[])
  }

  function QueueOf(s: System, p: PeerId): Queue { if p in s.queues then s.queues[p] else EMPTY }

  // ---------- steps ----------

  function Send(s: System, p: PeerId, t: Transfer, pub: nat, wire: seq<Byte>): System {
    if p !in s.ready then s
    else
      var hop := Hop(p, pub, t.sequence, wire);
      s.(hops := s.hops[s.nextHop := hop], sent := s.sent[s.nextHop := hop], nextHop := s.nextHop + 1,
         group := CG.Started(s.group, pub, p))
  }

  function Offer(s: System, p: PeerId, pub: nat, wire: seq<Byte>): System {
    if p !in s.ready then s
    else
      var (r, q) := Publish(QueueOf(s, p), Value(pub, wire));
      var s1 := s.(queues := s.queues[p := q]);
      if r.Ok? && r.value.Some? then Send(s1, p, r.value.value, pub, wire) else s1
  }

  function OfferAll(s: System, order: seq<PeerId>, pub: nat, wire: seq<Byte>): System {
    if order == [] then s
    else Offer(OfferAll(s, order[..|order| - 1], pub, wire), order[|order| - 1], pub, wire)
  }

  // Retained: the newest, what hops carry, and what queues have in flight.
  predicate Needed(s: System, pub: nat) {
    || (s.data != map[] && pub == s.newest)
    || (exists h :: h in s.hops && s.hops[h].publication == pub)
    || (exists p :: p in s.queues && s.queues[p].inFlight.Some? && s.queues[p].inFlight.value.value.publication == pub)
  }

  function Prune(s: System): System {
    s.(data := map pub | pub in s.data && Needed(s, pub) :: s.data[pub])
  }

  // The peer's queue after an operation ended: a pending value is promoted, and sent if
  // the peer is ready and the value's publication is still retained.
  function Advance(s: System, p: PeerId): System {
    if p !in s.queues then s
    else
      var (r, q) := Complete(s.queues[p]);
      match r
      case Err(_) => s.(queues := s.queues[p := q])
      case Ok(None) => s.(queues := s.queues - {p})
      case Ok(Some(t)) =>
        var s1 := s.(queues := s.queues[p := q]);
        if t.value.publication in s.data then Send(s1, p, t, t.value.publication, s.data[t.value.publication]) else s1
  }

  function EndHop(s: System, h: nat, r: PeerResult): System
    requires h in s.hops
  {
    s.(hops := s.hops - {h}, group := CG.Finished(s.group, s.hops[h].publication, s.hops[h].peer, r))
  }

  function Finish(s: System, h: nat, r: PeerResult): System
    requires h in s.hops
  {
    Prune(Advance(EndHop(s, h, r), s.hops[h].peer))
  }

  function Cleared(s: System): System { s.(hops := map[], queues := map[], data := map[]) }

  datatype Event =
    | Publishes(requirement: CG.Requirement, bytes: seq<Byte>, now: nat, order: seq<PeerId>)
    | OffersLatest(peer: PeerId)
    | BecomesReady(peer: PeerId)
    | BecomesUnready(peer: PeerId)
    | Answers(hop: nat)
    | AckArrives(hop: nat)
    | TimesOut(hop: nat)
    | SessionEnds(hop: nat)
    | Joins(peer: PeerId)
    | Leaves(peer: PeerId)
    | LosesAuthority
    | GainsAuthority
    | Receives(bytes: seq<Byte>)
    | Closes

  // The order in which the members are visited.
  predicate Enumerates(order: seq<PeerId>, members: set<PeerId>) {
    (set p | p in order) == members && (forall i, j :: 0 <= i < j < |order| ==> order[i] != order[j])
  }

  function PublishStep(s: System, requirement: CG.Requirement, bytes: seq<Byte>, now: nat, order: seq<PeerId>): System {
    var (r, g) := CG.Publish(s.group, s.open && s.coordinates, requirement, s.members, bytes, now);
    match r
    case Err(_) => s.(group := g)
    case Ok(pub) =>
      Prune(OfferAll(s.(group := g, data := s.data[pub := bytes], newest := pub, published := s.published[pub := bytes]),
                     order, pub, bytes))
  }

  // A peer that became READY is offered the retained checkpoint of the session.
  function OfferLatestStep(s: System, p: PeerId): System {
    if !s.coordinates || !s.open || p !in s.members || s.group.latest.None? || s.group.bytes.None? then s
    else
      var pub, bytes := s.group.latest.value, s.group.bytes.value;
      Offer(s.(data := s.data[pub := bytes], newest := if pub in s.data then s.newest else pub), p, pub, bytes)
  }

  // What the session records when a member leaves.
  function LeftGroup(s: System, p: PeerId): CG.Group {
    var q := QueueOf(s, p);
    if q.inFlight.Some? && q.inFlight.value.value.publication in s.data
    then CG.Finished(CG.PeerGone(s.group, p), q.inFlight.value.value.publication, p, PeerLeft)
    else CG.PeerGone(s.group, p)
  }

  function LeaveStep(s: System, p: PeerId): System {
    if p !in s.members then s
    else
      Prune(s.(members := s.members - {p}, group := LeftGroup(s, p), queues := s.queues - {p},
               hops := map h | h in s.hops && s.hops[h].peer != p :: s.hops[h]))
  }

  function Step(s: System, e: Event): System {
    match e
    case Publishes(requirement, bytes, now, order) =>
      if Enumerates(order, s.members) then PublishStep(s, requirement, bytes, now, order) else s
    case OffersLatest(p) => OfferLatestStep(s, p)
    case BecomesReady(p) => s.(ready := s.ready + {p})
    case BecomesUnready(p) => s.(ready := s.ready - {p})
    case Answers(h) => if h in s.sent then s.(answered := s.answered + {h}) else s
    case AckArrives(h) => if h in s.hops && h in s.answered then Finish(s, h, Acknowledged) else s
    case TimesOut(h) => if h in s.hops then Finish(s, h, AckTimeout) else s
    case SessionEnds(h) => if h in s.hops && s.hops[h].peer !in s.ready then Finish(s, h, SessionTerminated) else s
    case Joins(p) => s.(members := s.members + {p})
    case Leaves(p) => LeaveStep(s, p)
    case LosesAuthority =>
      if s.coordinates then Cleared(s.(group := CG.FailAll(s.group, AuthorityLost), coordinates := false)) else s
    case GainsAuthority => s.(coordinates := s.open)
    case Receives(bytes) => if s.open && !s.coordinates then s.(group := s.group.(bytes := Some(bytes))) else s
    case Closes =>
      if s.open then Cleared(s.(group := CG.FailAll(s.group, GroupClosed), coordinates := false, open := false)) else s
  }

  function Run(s: System, events: seq<Event>): System {
    if events == [] then s else Step(Run(s, events[..|events| - 1]), events[|events| - 1])
  }

  // ---------- soundness of acknowledgements ----------

  // Bytes that may go out under a publication: its own, while anybody still counts.
  predicate RightBytes(s: System, pub: nat, wire: seq<Byte>) {
    && pub in s.group.handles && pub in s.published
    && (s.group.handles[pub].Terminal() || wire == s.published[pub])
  }

  ghost predicate GroupSound(s: System) {
    && CG.Inv(s.group)
    && (forall pub :: pub in s.group.handles ==> pub in s.published)
    && (s.group.latest.Some? ==> RightBytes(s, s.group.latest.value, s.group.bytes.value))
    && (!s.coordinates ==> forall pub :: pub in s.group.handles ==> s.group.handles[pub].Terminal())
    && (s.coordinates ==> s.open)
  }

  ghost predicate DataSound(s: System) { forall pub :: pub in s.data ==> RightBytes(s, pub, s.data[pub]) }

  ghost predicate HopsSound(s: System) {
    && (forall h :: h in s.hops ==> h in s.sent && s.sent[h] == s.hops[h] && RightBytes(s, s.hops[h].publication, s.hops[h].wire))
    && (forall h :: h in s.sent ==> h < s.nextHop)
    && s.answered <= s.sent.Keys
  }

  // The peer answered an operation that carried this very publication.
  ghost predicate AnsweredBy(s: System, pub: nat, p: PeerId) {
    && pub in s.published
    && exists h :: h in s.answered && h in s.sent && s.sent[h].peer == p && s.sent[h].publication == pub
                   && s.sent[h].wire == s.published[pub]
  }

  ghost predicate AcksSound(s: System) {
    forall pub, p ::
      (pub in s.group.handles && p in s.group.handles[pub].results && s.group.handles[pub].results[p] == Acknowledged) ==>
        AnsweredBy(s, pub, p)
  }

  ghost predicate Sound(s: System) { GroupSound(s) && DataSound(s) && HopsSound(s) && AcksSound(s) }

  // What steps of the replication machinery leave alone.
  ghost predicate SameOutcomes(s: System, s': System) {
    && s'.group.handles == s.group.handles && s'.group.latest == s.group.latest && s'.group.bytes == s.group.bytes
    && s'.group.nextId == s.group.nextId && s'.published == s.published && s'.coordinates == s.coordinates && s'.open == s.open
    && s'.answered == s.answered
  }

  lemma AcksStay(s: System, s': System)
    requires AcksSound(s) && s'.group.handles == s.group.handles
    requires s.answered <= s'.answered
    requires forall h :: h in s.sent ==> h in s'.sent && s'.sent[h] == s.sent[h]
    requires forall pub :: pub in s.published ==> pub in s'.published && s'.published[pub] == s.published[pub]
    ensures AcksSound(s')
  {
    forall pub, p | pub in s'.group.handles && p in s'.group.handles[pub].results
                    && s'.group.handles[pub].results[p] == Acknowledged ensures AnsweredBy(s', pub, p) {
      assert AnsweredBy(s, pub, p);
    }
  }

  lemma SendKeeps(s: System, p: PeerId, t: Transfer, pub: nat, wire: seq<Byte>)
    requires Sound(s) && RightBytes(s, pub, wire)
    ensures Sound(Send(s, p, t, pub, wire)) && SameOutcomes(s, Send(s, p, t, pub, wire))
  {
    if p in s.ready {
      var s' := Send(s, p, t, pub, wire);
      CG.StartedKeeps(s.group, pub, p);
      assert GroupSound(s');
      assert DataSound(s');
      assert HopsSound(s');
      assert s.nextHop !in s.sent;
      AcksStay(s, s');
    }
  }

  lemma QueuesDoNotMatter(s: System, queues: map<PeerId, Queue>)
    requires Sound(s)
    ensures Sound(s.(queues := queues))
  {
    AcksStay(s, s.(queues := queues));
  }

  lemma OfferKeeps(s: System, p: PeerId, pub: nat, wire: seq<Byte>)
    requires Sound(s) && RightBytes(s, pub, wire)
    ensures Sound(Offer(s, p, pub, wire)) && SameOutcomes(s, Offer(s, p, pub, wire))
  {
    var (r, q) := Publish(QueueOf(s, p), Value(pub, wire));
    QueuesDoNotMatter(s, s.queues[p := q]);
    if p in s.ready && r.Ok? && r.value.Some? { SendKeeps(s.(queues := s.queues[p := q]), p, r.value.value, pub, wire); }
  }

  lemma {:induction false} OfferAllKeeps(s: System, order: seq<PeerId>, pub: nat, wire: seq<Byte>)
    requires Sound(s) && RightBytes(s, pub, wire)
    ensures Sound(OfferAll(s, order, pub, wire)) && SameOutcomes(s, OfferAll(s, order, pub, wire))
  {
    if order != [] {
      OfferAllKeeps(s, order[..|order| - 1], pub, wire);
      OfferKeeps(OfferAll(s, order[..|order| - 1], pub, wire), order[|order| - 1], pub, wire);
    }
  }

  // Retaining or waiting for less.
  lemma FewerKeeps(s: System, s': System)
    requires Sound(s) && SameOutcomes(s, s') && s'.group == s.group && s'.sent == s.sent && s'.nextHop == s.nextHop
    requires forall pub :: pub in s'.data ==> pub in s.data && s'.data[pub] == s.data[pub]
    requires forall h :: h in s'.hops ==> h in s.hops && s'.hops[h] == s.hops[h]
    ensures Sound(s')
  {
    AcksStay(s, s');
  }

  lemma AdvanceKeeps(s: System, p: PeerId)
    requires Sound(s)
    ensures Sound(Advance(s, p)) && SameOutcomes(s, Advance(s, p))
  {
    if p in s.queues {
      var (r, q) := Complete(s.queues[p]);
      QueuesDoNotMatter(s, s.queues[p := q]);
      QueuesDoNotMatter(s, s.queues - {p});
      if r.Ok? && r.value.Some? && r.value.value.value.publication in s.data {
        SendKeeps(s.(queues := s.queues[p := q]), p, r.value.value, r.value.value.value.publication,
                  s.data[r.value.value.value.publication]);
      }
    }
  }

  // The outcomes move forward, and every new acknowledgement is backed by an answer.
  lemma OutcomesMove(s: System, g: CG.Group)
    requires Sound(s) && CG.Inv(g) && CG.GroupForward(s.group, g) && g.handles.Keys == s.group.handles.Keys
    requires g.latest == s.group.latest && g.bytes == s.group.bytes
    requires forall pub, p :: pub in g.handles && p in g.handles[pub].results && g.handles[pub].results[p] == Acknowledged ==>
               s.group.handles[pub].results[p] == Acknowledged || AnsweredBy(s, pub, p)
    ensures Sound(s.(group := g))
  {
    var s' := s.(group := g);
    forall pub, p | pub in g.handles && p in g.handles[pub].results && g.handles[pub].results[p] == Acknowledged
      ensures AnsweredBy(s', pub, p)
    {
      assert AnsweredBy(s, pub, p);
    }
  }

  // Only the operation's own publication and peer can newly count, and only once answered.
  lemma EndHopAcks(s: System, h: nat, r: PeerResult, other: nat, q: PeerId)
    requires HopsSound(s) && h in s.hops && CG.Inv(s.group) && r != Pending && (r == Acknowledged ==> h in s.answered)
    requires other in s.group.handles && q in s.group.handles[other].results
    requires CG.Finished(s.group, s.hops[h].publication, s.hops[h].peer, r).handles[other].results[q] == Acknowledged
    ensures s.group.handles[other].results[q] == Acknowledged || AnsweredBy(s, other, q)
  {
    assert Consistent(s.group.handles[other]);
    CG.FinishedResult(s.group, s.hops[h].publication, s.hops[h].peer, r, other, q);
    if s.group.handles[other].results[q] != Acknowledged {
      assert s.group.handles[other].results[q] == Pending;
      assert RightBytes(s, s.hops[h].publication, s.hops[h].wire);
    }
  }

  lemma EndHopKeeps(s: System, h: nat, r: PeerResult)
    requires Sound(s) && h in s.hops && r != Pending && (r == Acknowledged ==> h in s.answered)
    ensures Sound(EndHop(s, h, r))
  {
    var g := CG.Finished(s.group, s.hops[h].publication, s.hops[h].peer, r);
    CG.FinishedKeeps(s.group, s.hops[h].publication, s.hops[h].peer, r);
    CG.FinishedKeys(s.group, s.hops[h].publication, s.hops[h].peer, r);
    forall other, q | other in g.handles && q in g.handles[other].results && g.handles[other].results[q] == Acknowledged
      ensures s.group.handles[other].results[q] == Acknowledged || AnsweredBy(s, other, q)
    {
      EndHopAcks(s, h, r, other, q);
    }
    OutcomesMove(s, g);
    FewerKeeps(s.(group := g), EndHop(s, h, r));
  }

  lemma FinishKeeps(s: System, h: nat, r: PeerResult)
    requires Sound(s) && h in s.hops && r != Pending && (r == Acknowledged ==> h in s.answered)
    ensures Sound(Finish(s, h, r))
  {
    EndHopKeeps(s, h, r);
    AdvanceKeeps(EndHop(s, h, r), s.hops[h].peer);
    FewerKeeps(Advance(EndHop(s, h, r), s.hops[h].peer), Finish(s, h, r));
  }

  // ---------- every event ----------

  lemma PublishStepKeeps(s: System, requirement: CG.Requirement, bytes: seq<Byte>, now: nat, order: seq<PeerId>)
    requires Sound(s)
    ensures Sound(PublishStep(s, requirement, bytes, now, order))
  {
    var (r, g) := CG.Publish(s.group, s.open && s.coordinates, requirement, s.members, bytes, now);
    CG.PublishKeeps(s.group, s.open && s.coordinates, requirement, s.members, bytes, now);
    if r.Ok? {
      AcceptedKeeps(s, requirement, bytes, now);
      var pub := r.value;
      var s1 := s.(group := g, data := s.data[pub := bytes], newest := pub, published := s.published[pub := bytes]);
      OfferAllKeeps(s1, order, pub, bytes);
      FewerKeeps(OfferAll(s1, order, pub, bytes), Prune(OfferAll(s1, order, pub, bytes)));
    } else {
      OutcomesMove(s, g);
    }
  }

  // The publication enters the records, before it is offered to anybody.
  lemma AcceptedKeeps(s: System, requirement: CG.Requirement, bytes: seq<Byte>, now: nat)
    requires Sound(s)
    ensures var (r, g) := CG.Publish(s.group, s.open && s.coordinates, requirement, s.members, bytes, now);
            r.Ok? ==>
              var s1 := s.(group := g, data := s.data[r.value := bytes], newest := r.value, published := s.published[r.value := bytes]);
              Sound(s1) && RightBytes(s1, r.value, bytes)
  {
    var (r, g) := CG.Publish(s.group, s.open && s.coordinates, requirement, s.members, bytes, now);
    CG.PublishKeeps(s.group, s.open && s.coordinates, requirement, s.members, bytes, now);
    if r.Ok? {
      var pub := r.value;
      var s1 := s.(group := g, data := s.data[pub := bytes], newest := pub, published := s.published[pub := bytes]);
      assert GroupSound(s1);
      assert DataSound(s1);
      assert HopsSound(s1);
      forall other, p | other in g.handles && p in g.handles[other].results && g.handles[other].results[p] == Acknowledged
        ensures AnsweredBy(s1, other, p)
      {
        assert other != pub;
        assert AnsweredBy(s, other, p);
      }
    }
  }

  // Retaining the session's checkpoint again, under the latest publication.
  lemma RetainKeeps(s: System, pub: nat, bytes: seq<Byte>, newest: nat)
    requires Sound(s) && RightBytes(s, pub, bytes)
    ensures Sound(s.(data := s.data[pub := bytes], newest := newest))
  {
    AcksStay(s, s.(data := s.data[pub := bytes], newest := newest));
  }

  lemma OfferLatestStepKeeps(s: System, p: PeerId)
    requires Sound(s)
    ensures Sound(OfferLatestStep(s, p))
  {
    if s.group.latest.Some? && s.group.bytes.Some? {
      var pub, bytes := s.group.latest.value, s.group.bytes.value;
      assert RightBytes(s, pub, bytes);
      var newest := if pub in s.data then s.newest else pub;
      RetainKeeps(s, pub, bytes, newest);
      OfferKeeps(s.(data := s.data[pub := bytes], newest := newest), p, pub, bytes);
    }
  }

  lemma LeftGroupMoves(g: CG.Group, p: PeerId, pub: nat)
    requires CG.Inv(g)
    ensures var g' := CG.Finished(CG.PeerGone(g, p), pub, p, PeerLeft);
            && CG.Inv(g') && CG.GroupForward(g, g') && CG.NoNewAck(g, g') && g'.handles.Keys == g.handles.Keys
            && g'.latest == g.latest && g'.bytes == g.bytes
  {
    var gone := CG.PeerGone(g, p);
    CG.PeerGoneKeeps(g, p);
    CG.FinishedKeeps(gone, pub, p, PeerLeft);
    CG.FinishedKeys(gone, pub, p, PeerLeft);
    ForwardTwice(g, gone, CG.Finished(gone, pub, p, PeerLeft));
  }

  lemma LeftGroupKeeps(s: System, p: PeerId)
    requires Sound(s)
    ensures Sound(s.(group := LeftGroup(s, p))) && CG.GroupForward(s.group, LeftGroup(s, p))
  {
    CG.PeerGoneKeeps(s.group, p);
    if QueueOf(s, p).inFlight.Some? { LeftGroupMoves(s.group, p, QueueOf(s, p).inFlight.value.value.publication); }
    OutcomesMove(s, LeftGroup(s, p));
  }

  lemma LeaveStepKeeps(s: System, p: PeerId)
    requires Sound(s)
    ensures Sound(LeaveStep(s, p)) && CG.GroupForward(s.group, LeaveStep(s, p).group)
  {
    LeftGroupKeeps(s, p);
    if p in s.members { FewerKeeps(s.(group := LeftGroup(s, p)), LeaveStep(s, p)); }
  }

  // Losing authority, or closing: every publication is decided and nothing is retained.
  lemma FailedKeeps(s: System, r: PeerResult, coordinates: bool, open: bool)
    requires Sound(s) && r != Pending && r != Acknowledged && !coordinates
    ensures Sound(Cleared(s.(group := CG.FailAll(s.group, r), coordinates := coordinates, open := open)))
  {
    CG.FailAllKeeps(s.group, r);
    OutcomesMove(s, CG.FailAll(s.group, r));
    var s' := Cleared(s.(group := CG.FailAll(s.group, r), coordinates := coordinates, open := open));
    AcksStay(s.(group := CG.FailAll(s.group, r)), s');
  }

  lemma ReceivesKeeps(s: System, bytes: seq<Byte>)
    requires Sound(s) && !s.coordinates
    ensures Sound(s.(group := s.group.(bytes := Some(bytes))))
  {
    var g := s.group.(bytes := Some(bytes));
    forall pub | pub in g.handles ensures CG.WaitsOnlyInFlight(g, pub) { assert CG.WaitsOnlyInFlight(s.group, pub); }
    AcksStay(s, s.(group := g));
  }

  lemma AnswersKeeps(s: System, h: nat)
    requires Sound(s) && h in s.sent
    ensures Sound(s.(answered := s.answered + {h}))
  {
    AcksStay(s, s.(answered := s.answered + {h}));
  }

  lemma GainsAuthorityKeeps(s: System)
    requires Sound(s)
    ensures Sound(s.(coordinates := s.open))
  {
    AcksStay(s, s.(coordinates := s.open));
  }

  lemma QuietKeeps(s: System, e: Event)
    requires Sound(s) && (e.BecomesReady? || e.BecomesUnready? || e.Joins?)
    ensures Sound(Step(s, e))
  {
    AcksStay(s, Step(s, e));
  }

  lemma StepKeeps(s: System, e: Event)
    requires Sound(s)
    ensures Sound(Step(s, e))
  {
    match e
    case Publishes(requirement, bytes, now, order) => PublishStepKeeps(s, requirement, bytes, now, order);
    case OffersLatest(p) => OfferLatestStepKeeps(s, p);
    case AckArrives(h) => if h in s.hops && h in s.answered { FinishKeeps(s, h, Acknowledged); }
    case TimesOut(h) => if h in s.hops { FinishKeeps(s, h, AckTimeout); }
    case SessionEnds(h) => if h in s.hops && s.hops[h].peer !in s.ready { FinishKeeps(s, h, SessionTerminated); }
    case Leaves(p) => LeaveStepKeeps(s, p);
    case LosesAuthority => FailedKeeps(s, AuthorityLost, false, s.open);
    case Receives(bytes) => if s.open && !s.coordinates { ReceivesKeeps(s, bytes); }
    case Closes => FailedKeeps(s, GroupClosed, false, false);
    case Answers(h) => if h in s.sent { AnswersKeeps(s, h); }
    case GainsAuthority => GainsAuthorityKeeps(s);
    case _ => QuietKeeps(s, e);
  }

  lemma {:induction false} RunSound(s: System, events: seq<Event>)
    requires Sound(s)
    ensures Sound(Run(s, events))
  {
    if events != [] {
      RunSound(s, events[..|events| - 1]);
      StepKeeps(Run(s, events[..|events| - 1]), events[|events| - 1]);
    }
  }

  // In every run: a publication is DURABLE iff every peer of its fixed required set is
  // recorded as acknowledged; then each of those peers answered an operation that carried
  // exactly the published bytes under that very publication; and the completion fires
  // once, exactly when no peer waits any more.
  lemma DurableMeansAnswered(members: set<PeerId>, ready: set<PeerId>, coordinates: bool, events: seq<Event>, pub: nat)
    requires pub in Run(Start(members, ready, coordinates), events).group.handles
    ensures var end := Run(Start(members, ready, coordinates), events);
            var h := end.group.handles[pub];
            && (h.status == Durable <==> forall p :: p in h.results ==> h.results[p] == Acknowledged)
            && (forall p :: p in h.results && h.results[p] == Acknowledged ==> AnsweredBy(end, pub, p))
            && (h.status == Durable ==> forall p :: p in h.results ==> AnsweredBy(end, pub, p))
            && h.completions <= 1 && (h.completions == 1 <==> forall p :: p in h.results ==> h.results[p] != Pending)
  {
    RunSound(Start(members, ready, coordinates), events);
  }

  // ---------- results never change ----------

  lemma ForwardTwice(g1: CG.Group, g2: CG.Group, g3: CG.Group)
    requires CG.GroupForward(g1, g2) && CG.GroupForward(g2, g3)
    ensures CG.GroupForward(g1, g3)
  {
    forall pub | pub in g1.handles ensures pub in g3.handles && CG.Forward(g1.handles[pub], g3.handles[pub]) {
      assert CG.Forward(g1.handles[pub], g2.handles[pub]);
      assert CG.Forward(g2.handles[pub], g3.handles[pub]);
    }
  }

  lemma FinishHandles(s: System, h: nat, r: PeerResult)
    requires h in s.hops
    ensures Finish(s, h, r).group.handles == CG.Finished(s.group, s.hops[h].publication, s.hops[h].peer, r).handles
    ensures Finish(s, h, r).published == s.published
    ensures Finish(s, h, r).group.times == s.group.times
  {
    AdvanceHandles(EndHop(s, h, r), s.hops[h].peer);
  }

  lemma AdvanceHandles(s: System, p: PeerId)
    ensures Advance(s, p).group.handles == s.group.handles && Advance(s, p).published == s.published
    ensures Advance(s, p).group.times == s.group.times
  {
    if p in s.queues {
      var (r, q) := Complete(s.queues[p]);
      if r.Ok? && r.value.Some? && r.value.value.value.publication in s.data {
        var pub := r.value.value.value.publication;
        SendHandles(s.(queues := s.queues[p := q]), p, r.value.value, pub, s.data[pub]);
      }
    }
  }

  lemma FinishForward(s: System, h: nat, r: PeerResult)
    requires Sound(s) && h in s.hops && r != Pending
    ensures CG.GroupForward(s.group, Finish(s, h, r).group)
  {
    CG.FinishedKeeps(s.group, s.hops[h].publication, s.hops[h].peer, r);
    FinishHandles(s, h, r);
  }

  lemma PublishForward(s: System, requirement: CG.Requirement, bytes: seq<Byte>, now: nat, order: seq<PeerId>)
    requires Sound(s)
    ensures CG.GroupForward(s.group, PublishStep(s, requirement, bytes, now, order).group)
  {
    var (r, g) := CG.Publish(s.group, s.open && s.coordinates, requirement, s.members, bytes, now);
    CG.PublishKeeps(s.group, s.open && s.coordinates, requirement, s.members, bytes, now);
    if r.Ok? {
      AcceptedKeeps(s, requirement, bytes, now);
      OfferAllKeeps(s.(group := g, data := s.data[r.value := bytes], newest := r.value, published := s.published[r.value := bytes]),
                    order, r.value, bytes);
    }
  }

  lemma StepForward(s: System, e: Event)
    requires Sound(s)
    ensures CG.GroupForward(s.group, Step(s, e).group)
  {
    match e
    case Publishes(requirement, bytes, now, order) => PublishForward(s, requirement, bytes, now, order);
    case OffersLatest(p) => OfferLatestForward(s, p);
    case AckArrives(h) => if h in s.hops && h in s.answered { FinishForward(s, h, Acknowledged); }
    case TimesOut(h) => if h in s.hops { FinishForward(s, h, AckTimeout); }
    case SessionEnds(h) => if h in s.hops && s.hops[h].peer !in s.ready { FinishForward(s, h, SessionTerminated); }
    case Leaves(p) => LeaveStepKeeps(s, p);
    case _ => OtherForward(s, e);
  }

  lemma OtherForward(s: System, e: Event)
    requires Sound(s)
    requires e.BecomesReady? || e.BecomesUnready? || e.Answers? || e.Joins? || e.LosesAuthority? || e.GainsAuthority?
             || e.Receives? || e.Closes?
    ensures CG.GroupForward(s.group, Step(s, e).group)
  {
    if e.LosesAuthority? {
      CG.FailAllKeeps(s.group, AuthorityLost);
    } else if e.Closes? {
      CG.FailAllKeeps(s.group, GroupClosed);
    } else {
      assert Step(s, e).group.handles == s.group.handles;
    }
  }

  lemma OfferHandles(s: System, p: PeerId, pub: nat, wire: seq<Byte>)
    ensures Offer(s, p, pub, wire).group.handles == s.group.handles && Offer(s, p, pub, wire).published == s.published
    ensures Offer(s, p, pub, wire).group.times == s.group.times
  {
    if p in s.ready {
      var (r, q) := Publish(QueueOf(s, p), Value(pub, wire));
      if r.Ok? && r.value.Some? { SendHandles(s.(queues := s.queues[p := q]), p, r.value.value, pub, wire); }
    }
  }

  lemma SendHandles(s: System, p: PeerId, t: Transfer, pub: nat, wire: seq<Byte>)
    ensures Send(s, p, t, pub, wire).group.handles == s.group.handles && Send(s, p, t, pub, wire).published == s.published
    ensures Send(s, p, t, pub, wire).group.times == s.group.times
  {
  }

  lemma OfferLatestForward(s: System, p: PeerId)
    requires Sound(s)
    ensures CG.GroupForward(s.group, OfferLatestStep(s, p).group)
  {
    if OfferLatestStep(s, p) != s && s.group.latest.Some? && s.group.bytes.Some? {
      var pub, bytes := s.group.latest.value, s.group.bytes.value;
      OfferHandles(s.(data := s.data[pub := bytes], newest := if pub in s.data then s.newest else pub), p, pub, bytes);
    }
  }

  // Under any interleaving, a recorded result stays, a complete publication does not
  // change at all, and its required set is the one fixed at publication.
  lemma {:induction false} ResultsAreFinal(s: System, events: seq<Event>, pub: nat)
    requires Sound(s) && pub in s.group.handles
    ensures var end := Run(s, events);
            pub in end.group.handles && CG.Forward(s.group.handles[pub], end.group.handles[pub])
  {
    if events != [] {
      var front := events[..|events| - 1];
      ResultsAreFinal(s, front, pub);
      RunSound(s, front);
      StepForward(Run(s, front), events[|events| - 1]);
      assert CG.Forward(Run(s, front).group.handles[pub], Run(s, events).group.handles[pub]);
    }
  }

  // The ACK of an operation that is still waited for counts for its own publication and
  // peer, and for no other.
  lemma AckCountsExactlyOnce(s: System, h: nat, pub: nat, p: PeerId)
    requires h in s.hops && h in s.answered
    requires pub in s.group.handles && Consistent(s.group.handles[pub]) && p in s.group.handles[pub].results
    ensures var s' := Step(s, AckArrives(h));
            && pub in s'.group.handles && p in s'.group.handles[pub].results
            && s'.group.handles[pub].results[p]
               == (if s.hops[h].publication == pub && s.hops[h].peer == p && s.group.handles[pub].results[p] == Pending
                      then Acknowledged else s.group.handles[pub].results[p])
  {
    FinishHandles(s, h, Acknowledged);
    CG.FinishedResult(s.group, s.hops[h].publication, s.hops[h].peer, Acknowledged, pub, p);
  }

  // A timeout, or the end of an unready peer's session, counts the same way with its reason.
  lemma FailureCountsExactlyOnce(s: System, e: Event, h: nat, pub: nat, p: PeerId)
    requires h in s.hops && (e == TimesOut(h) || (e == SessionEnds(h) && s.hops[h].peer !in s.ready))
    requires pub in s.group.handles && Consistent(s.group.handles[pub]) && p in s.group.handles[pub].results
    ensures var s' := Step(s, e);
            && pub in s'.group.handles && p in s'.group.handles[pub].results
            && s'.group.handles[pub].results[p]
               == (if s.hops[h].publication == pub && s.hops[h].peer == p && s.group.handles[pub].results[p] == Pending
                      then (if e.TimesOut? then AckTimeout else SessionTerminated) else s.group.handles[pub].results[p])
  {
    var r := if e.TimesOut? then AckTimeout else SessionTerminated;
    FinishHandles(s, h, r);
    CG.FinishedResult(s.group, s.hops[h].publication, s.hops[h].peer, r, pub, p);
  }

  // A member that leaves is decided as left wherever it waited, and no operation and no
  // queue for it is left; nobody else is decided.
  lemma LeavingDecided(s: System, gone: PeerId, pub: nat, p: PeerId)
    requires CG.Inv(s.group) && gone in s.members && pub in s.group.handles && p in s.group.handles[pub].results
    ensures var (s', was) := (Step(s, Leaves(gone)), s.group.handles[pub].results[p]);
            && s'.members == s.members - {gone} && gone !in s'.queues
            && (forall h :: h in s'.hops <==> h in s.hops && s.hops[h].peer != gone)
            && (forall q :: q != gone ==> (q in s'.queues <==> q in s.queues) && (q in s.queues ==> s'.queues[q] == s.queues[q]))
            && pub in s'.group.handles && p in s'.group.handles[pub].results
            && s'.group.handles[pub].results[p] == (if p == gone && was == Pending then PeerLeft else was)
  {
    CG.DepartureDecided(s.group, gone, pub, p);
    LeftResult(s, gone, pub, p);
  }

  lemma LeftResult(s: System, gone: PeerId, pub: nat, p: PeerId)
    requires CG.Inv(s.group) && pub in s.group.handles && p in s.group.handles[pub].results
    ensures pub in CG.PeerGone(s.group, gone).handles && pub in LeftGroup(s, gone).handles
    ensures p in CG.PeerGone(s.group, gone).handles[pub].results && p in LeftGroup(s, gone).handles[pub].results
    ensures LeftGroup(s, gone).handles[pub].results[p] == CG.PeerGone(s.group, gone).handles[pub].results[p]
  {
    CG.PeerGoneKeeps(s.group, gone);
    if QueueOf(s, gone).inFlight.Some? {
      CG.FinishedResult(CG.PeerGone(s.group, gone), QueueOf(s, gone).inFlight.value.value.publication, gone, PeerLeft, pub, p);
      assert !CG.PeerGone(s.group, gone).handles[pub].Waits(gone);
    }
  }

  // Losing authority, and closing, decide every peer that waits, with the reason, and leave
  // nothing in flight, queued or retained.
  lemma EndingDecided(s: System, e: Event, pub: nat, p: PeerId)
    requires CG.Inv(s.group) && pub in s.group.handles && p in s.group.handles[pub].results
    requires (e == LosesAuthority && s.coordinates) || (e == Closes && s.open)
    ensures var (s', was) := (Step(s, e), s.group.handles[pub].results[p]);
            && !s'.coordinates && s'.open == (s.open && e != Closes) && s'.hops == map[] && s'.queues == map[] && s'.data == map[]
            && pub in s'.group.handles && p in s'.group.handles[pub].results
            && s'.group.handles[pub].results[p] == (if was == Pending then (if e == Closes then GroupClosed else AuthorityLost) else was)
  {
    CG.FailureDecided(s.group, if e == Closes then GroupClosed else AuthorityLost, pub, p);
  }

  // ---------- what a publication waits for ----------

  lemma PublishStepPublished(s: System, requirement: CG.Requirement, bytes: seq<Byte>, now: nat, order: seq<PeerId>, pub: nat)
    requires Sound(s) && pub in s.group.handles
    ensures var s' := PublishStep(s, requirement, bytes, now, order); pub in s'.published && s'.published[pub] == s.published[pub]
  {
    var (r, g) := CG.Publish(s.group, s.open && s.coordinates, requirement, s.members, bytes, now);
    CG.PublishKeeps(s.group, s.open && s.coordinates, requirement, s.members, bytes, now);
    if r.Ok? {
      AcceptedKeeps(s, requirement, bytes, now);
      OfferAllKeeps(s.(group := g, data := s.data[r.value := bytes], newest := r.value, published := s.published[r.value := bytes]),
                    order, r.value, bytes);
    }
  }

  lemma OtherPublished(s: System, e: Event)
    requires !e.Publishes? && !e.AckArrives? && !e.TimesOut? && !e.SessionEnds? && !e.OffersLatest?
    ensures Step(s, e).published == s.published && Step(s, e).group.times == s.group.times
  {
  }

  lemma OfferLatestPublished(s: System, p: PeerId)
    ensures OfferLatestStep(s, p).published == s.published && OfferLatestStep(s, p).group.times == s.group.times
  {
    if OfferLatestStep(s, p) != s && s.group.latest.Some? && s.group.bytes.Some? {
      var pub, bytes := s.group.latest.value, s.group.bytes.value;
      OfferHandles(s.(data := s.data[pub := bytes], newest := if pub in s.data then s.newest else pub), p, pub, bytes);
    }
  }

  lemma PublishedStay(s: System, e: Event, pub: nat)
    requires Sound(s) && pub in s.group.handles
    ensures pub in Step(s, e).published && Step(s, e).published[pub] == s.published[pub]
  {
    match e
    case Publishes(requirement, bytes, now, order) =>
      if Enumerates(order, s.members) { PublishStepPublished(s, requirement, bytes, now, order, pub); }
    case AckArrives(h) => if h in s.hops { FinishHandles(s, h, Acknowledged); }
    case TimesOut(h) => if h in s.hops { FinishHandles(s, h, AckTimeout); }
    case SessionEnds(h) => if h in s.hops { FinishHandles(s, h, SessionTerminated); }
    case OffersLatest(p) => OfferLatestPublished(s, p);
    case _ => OtherPublished(s, e);
  }

  // An accepted publication waits for exactly the peers it requires.
  lemma PublicationStarts(s: System, requirement: CG.Requirement, bytes: seq<Byte>, now: nat, order: seq<PeerId>)
    requires Sound(s) && s.group.nextId in Step(s, Publishes(requirement, bytes, now, order)).group.handles
    ensures var (s', pub) := (Step(s, Publishes(requirement, bytes, now, order)), s.group.nextId);
            && CG.MayRequire(requirement, s.members) && CG.AsRequired(requirement, s.members, s'.group.handles[pub])
            && pub in s'.published && s'.published[pub] == bytes
  {
    var (r, g) := CG.Publish(s.group, s.open && s.coordinates, requirement, s.members, bytes, now);
    CG.PublishKeeps(s.group, s.open && s.coordinates, requirement, s.members, bytes, now);
    CG.PublicationDecided(s.group, s.open && s.coordinates, requirement, s.members, bytes, now);
    if r.Ok? {
      AcceptedKeeps(s, requirement, bytes, now);
      OfferAllKeeps(s.(group := g, data := s.data[r.value := bytes], newest := r.value, published := s.published[r.value := bytes]),
                    order, r.value, bytes);
    }
  }

  // ---------- how often publications are accepted ----------

  // When the publications of a run were accepted.
  function AcceptedAt(s: System, events: seq<Event>): seq<nat> {
    if events == [] then []
    else
      var front, e := events[..|events| - 1], events[|events| - 1];
      if e.Publishes? && Run(s, front).group.nextId in Step(Run(s, front), e).group.handles then AcceptedAt(s, front) + [e.now]
      else AcceptedAt(s, front)
  }

  // The time of the last attempt to publish.
  function LastAttempt(events: seq<Event>): nat {
    if events == [] then 0
    else if events[|events| - 1].Publishes? then events[|events| - 1].now
    else LastAttempt(events[..|events| - 1])
  }

  predicate TimeGoesOn(events: seq<Event>) {
    events != [] ==>
      var front, e := events[..|events| - 1], events[|events| - 1];
      TimeGoesOn(front) && (e.Publishes? ==> LastAttempt(front) <= e.now)
  }

  // The remembered times are the last of the accepted ones; all before lie a second back.
  ghost predicate Remembers(times: seq<nat>, accepted: seq<nat>, last: nat) {
    && |times| <= |accepted| && times == accepted[|accepted| - |times|..]
    && (forall i, j :: 0 <= i < j < |accepted| ==> accepted[i] <= accepted[j])
    && (forall i :: 0 <= i < |accepted| ==> accepted[i] <= last)
    && (forall i :: 0 <= i < |accepted| - |times| ==> accepted[i] + 1000 <= last)
  }

  // Any five accepted publications span a second or more.
  ghost predicate Spaced(accepted: seq<nat>) {
    forall i, j :: 0 <= i && i + 4 <= j < |accepted| ==> accepted[i] + 1000 <= accepted[j]
  }

  lemma ForgetsOld(times: seq<nat>, accepted: seq<nat>, last: nat, now: nat)
    requires Remembers(times, accepted, last) && last <= now
    ensures Remembers(CG.Recent(times, now), accepted, now) && Remembers(times, accepted, now)
  {
    var k := |accepted| - |times|;
    assert forall i :: 0 <= i < |times| ==> times[i] == accepted[i + k];
    CG.RecentMeaning(times, now);
    assert forall i :: k <= i < |accepted| ==> accepted[i] == times[i - k];
  }

  lemma AcceptsSpaced(times: seq<nat>, accepted: seq<nat>, now: nat)
    requires Remembers(times, accepted, now) && |times| < CG.PUBLISH_LIMIT && Spaced(accepted)
    ensures Remembers(times + [now], accepted + [now], now) && Spaced(accepted + [now])
  {
  }

  lemma {:induction false} OfferAllTimes(s: System, order: seq<PeerId>, pub: nat, wire: seq<Byte>)
    ensures OfferAll(s, order, pub, wire).group.times == s.group.times
    ensures OfferAll(s, order, pub, wire).group.handles == s.group.handles
  {
    if order != [] {
      OfferAllTimes(s, order[..|order| - 1], pub, wire);
      OfferHandles(OfferAll(s, order[..|order| - 1], pub, wire), order[|order| - 1], pub, wire);
    }
  }

  lemma PublishTimes(s: System, requirement: CG.Requirement, bytes: seq<Byte>, now: nat, order: seq<PeerId>)
    requires CG.Inv(s.group) && Enumerates(order, s.members)
    ensures var s' := Step(s, Publishes(requirement, bytes, now, order));
            var recent := CG.Recent(s.group.times, now);
            if s.group.nextId in s'.group.handles then |recent| < CG.PUBLISH_LIMIT && s'.group.times == recent + [now]
            else s'.group.times == s.group.times || s'.group.times == recent
  {
    var (r, g) := CG.Publish(s.group, s.open && s.coordinates, requirement, s.members, bytes, now);
    CG.PublicationDecided(s.group, s.open && s.coordinates, requirement, s.members, bytes, now);
    if r.Ok? {
      OfferAllTimes(s.(group := g, data := s.data[r.value := bytes], newest := r.value, published := s.published[r.value := bytes]),
                    order, r.value, bytes);
    }
  }

  lemma OtherTimes(s: System, e: Event)
    requires !e.Publishes?
    ensures Step(s, e).group.times == s.group.times
  {
    match e
    case OffersLatest(p) => OfferLatestPublished(s, p);
    case AckArrives(h) => if h in s.hops { FinishHandles(s, h, Acknowledged); }
    case TimesOut(h) => if h in s.hops { FinishHandles(s, h, AckTimeout); }
    case SessionEnds(h) => if h in s.hops { FinishHandles(s, h, SessionTerminated); }
    case _ => OtherPublished(s, e);
  }

  // In every run whose clock does not go back, no five publications are accepted within
  // less than a second.
  lemma {:induction false} AcceptedRate(s: System, events: seq<Event>)
    requires Sound(s) && s.group.times == [] && TimeGoesOn(events)
    ensures Spaced(AcceptedAt(s, events))
    ensures Remembers(Run(s, events).group.times, AcceptedAt(s, events), LastAttempt(events))
  {
    if events != [] {
      var front, e := events[..|events| - 1], events[|events| - 1];
      var mid := Run(s, front);
      AcceptedRate(s, front);
      RunSound(s, front);
      if e.Publishes? {
        ForgetsOld(mid.group.times, AcceptedAt(s, front), LastAttempt(front), e.now);
        if Enumerates(e.order, mid.members) {
          PublishTimes(mid, e.requirement, e.bytes, e.now, e.order);
          if mid.group.nextId in Step(mid, e).group.handles {
            AcceptsSpaced(CG.Recent(mid.group.times, e.now), AcceptedAt(s, front), e.now);
          }
        }
      } else {
        OtherTimes(mid, e);
      }
    }
  }
}
