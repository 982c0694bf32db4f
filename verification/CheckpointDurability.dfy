/**
 Checkpoint replication end to end: the coordinator of CheckpointReplication, and at every
 peer the receiver of CheckpointReceive, which alone can answer an operation. What
 DURABLE then says about the receivers.
 */
module CheckpointDurability {
  import opened Types
  import opened Chunks
  import opened Reassembly
  import RG = ReassemblyGuarantees
  import H = CheckpointHandle
  import Q = CheckpointQueue
  import CG = CheckpointGroup
  import R = CheckpointReplication
  import V = CheckpointReceive

  // The term and validation flag a publication was accepted with.
  datatype Tag = Tag(term: nat, validate: bool)

  // `logs` are the inputs of each peer's present receiver; `earlier` holds what the
  // receivers of the peer's former connections committed.
  datatype System = System(
    sender: R.System,
    logs: map<PeerId, seq<V.Event>>,
    earlier: map<PeerId, set<V.Entry>>)

  function Begin(sender: R.System): System { System(sender, map[], map[]) }

  function LogOf(s: System, p: PeerId): seq<V.Event> { if p in s.logs then s.logs[p] else [] }

  ghost function ReceiverOf(s: System, p: PeerId): V.Receiver { V.Run(V.COMPLETED_WINDOW, LogOf(s, p)) }

  // Everything the peer has ever committed.
  ghost function CommittedAt(s: System, p: PeerId): set<V.Entry> {
    (set e | e in ReceiverOf(s, p).committed) + (if p in s.earlier then s.earlier[p] else {})
  }

  function MetaOf(tags: nat -> Tag, hop: R.Hop): CheckpointMeta {
    CheckpointMeta(tags(hop.publication).term, hop.sequence, tags(hop.publication).validate)
  }

  // The checkpoint that an operation carries.
  function Carries(tags: nat -> Tag, hop: R.Hop): Whole<CheckpointMeta> { Whole(MetaOf(tags, hop), hop.wire) }

  datatype Event =
    | AtSender(event: R.Event)
    | ChunkArrives(hop: nat, index: nat, now: int, term: nat)
    | Decides(peer: PeerId, verdict: bool, term: nat)
    | GenerationChanges(peer: PeerId, cleared: bool)
    | Reconnects(peer: PeerId)          // a new connection, with a new receiver
    | ReceiverAnswers(hop: nat)

  function Fed(s: System, p: PeerId, e: V.Event): System { s.(logs := s.logs[p := LogOf(s, p) + [e]]) }

  // The present receiver of the operation's peer has acknowledged its MessageId.
  ghost predicate HasAcknowledged(s: System, hop: nat) {
    hop in s.sender.sent && exists e :: e in ReceiverOf(s, s.sender.sent[hop].peer).acknowledged && e.id == hop
  }

  ghost function Step(tags: nat -> Tag, s: System, e: Event): System {
    match e
    case AtSender(event) => if event.Answers? then s else s.(sender := R.Step(s.sender, event))
    case ChunkArrives(h, i, now, term) =>
      if h !in s.sender.sent || i >= CountFor(CHECKPOINT, |s.sender.sent[h].wire|) then s
      else
        var hop := s.sender.sent[h];
        Fed(s, hop.peer, V.Arrives(h, ChunkAt(CHECKPOINT, MetaOf(tags, hop), hop.wire, i), now, term))
    case Decides(p, verdict, term) => Fed(s, p, V.Decided(verdict, term))
    case GenerationChanges(p, cleared) => Fed(s, p, V.GenerationChanges(cleared))
    case Reconnects(p) => s.(logs := s.logs[p := []], earlier := s.earlier[p := CommittedAt(s, p)])
    case ReceiverAnswers(h) =>
      if HasAcknowledged(s, h) then s.(sender := R.Step(s.sender, R.Answers(h))) else s
  }

  ghost function Run(tags: nat -> Tag, s: System, events: seq<Event>): System {
    if events == [] then s else Step(tags, Run(tags, s, events[..|events| - 1]), events[|events| - 1])
  }

  // ---------- what the sender's own steps leave alone ----------

  // Operations stay as they were sent, and no answer appears.
  ghost predicate SentGrows(s: R.System, s': R.System) {
    && (forall h :: h in s.sent ==> h in s'.sent && s'.sent[h] == s.sent[h])
    && s'.answered == s.answered
  }

  lemma SendGrows(s: R.System, p: PeerId, t: Q.Transfer, pub: nat, wire: seq<Byte>)
    requires s.nextHop !in s.sent
    ensures SentGrows(s, R.Send(s, p, t, pub, wire))
  {
  }

  lemma OfferGrows(s: R.System, p: PeerId, pub: nat, wire: seq<Byte>)
    requires s.nextHop !in s.sent
    ensures SentGrows(s, R.Offer(s, p, pub, wire))
  {
    var (r, q) := Q.Publish(R.QueueOf(s, p), Q.Value(pub, wire));
    if p in s.ready && r.Ok? && r.value.Some? { SendGrows(s.(queues := s.queues[p := q]), p, r.value.value, pub, wire); }
  }

  lemma {:induction false} OfferAllGrows(s: R.System, order: seq<PeerId>, pub: nat, wire: seq<Byte>)
    requires R.Sound(s) && R.RightBytes(s, pub, wire)
    ensures SentGrows(s, R.OfferAll(s, order, pub, wire))
  {
    if order != [] {
      var front := order[..|order| - 1];
      OfferAllGrows(s, front, pub, wire);
      R.OfferAllKeeps(s, front, pub, wire);
      OfferGrows(R.OfferAll(s, front, pub, wire), order[|order| - 1], pub, wire);
    }
  }

  lemma FinishGrows(s: R.System, h: nat, r: H.PeerResult)
    requires h in s.hops && s.nextHop !in s.sent
    ensures SentGrows(s, R.Finish(s, h, r))
  {
    var (s1, p) := (R.EndHop(s, h, r), s.hops[h].peer);
    if p in s1.queues {
      var (res, q) := Q.Complete(s1.queues[p]);
      if res.Ok? && res.value.Some? && res.value.value.value.publication in s1.data {
        var pub := res.value.value.value.publication;
        SendGrows(s1.(queues := s1.queues[p := q]), p, res.value.value, pub, s1.data[pub]);
      }
    }
  }

  lemma PublishGrows(s: R.System, requirement: CG.Requirement, bytes: seq<Byte>, now: nat, order: seq<PeerId>)
    requires R.Sound(s)
    ensures SentGrows(s, R.PublishStep(s, requirement, bytes, now, order))
  {
    var (r, g) := CG.Publish(s.group, s.open && s.coordinates, requirement, s.members, bytes, now);
    if r.Ok? {
      R.AcceptedKeeps(s, requirement, bytes, now);
      OfferAllGrows(s.(group := g, data := s.data[r.value := bytes], newest := r.value, published := s.published[r.value := bytes]),
                    order, r.value, bytes);
    }
  }

  lemma OfferLatestGrows(s: R.System, p: PeerId)
    requires s.nextHop !in s.sent
    ensures SentGrows(s, R.OfferLatestStep(s, p))
  {
    if s.group.latest.Some? && s.group.bytes.Some? {
      var pub, bytes := s.group.latest.value, s.group.bytes.value;
      OfferGrows(s.(data := s.data[pub := bytes], newest := if pub in s.data then s.newest else pub), p, pub, bytes);
    }
  }

  lemma SenderGrows(s: R.System, e: R.Event)
    requires R.Sound(s) && !e.Answers?
    ensures SentGrows(s, R.Step(s, e))
  {
    match e
    case Publishes(requirement, bytes, now, order) => PublishGrows(s, requirement, bytes, now, order);
    case OffersLatest(p) => OfferLatestGrows(s, p);
    case AckArrives(h) => if h in s.hops && h in s.answered { FinishGrows(s, h, H.Acknowledged); }
    case TimesOut(h) => if h in s.hops { FinishGrows(s, h, H.AckTimeout); }
    case SessionEnds(h) => if h in s.hops && s.hops[h].peer !in s.ready { FinishGrows(s, h, H.SessionTerminated); }
    case _ =>
  }

  // ---------- every answer is backed by a commit ----------

  ghost function ContentOf(tags: nat -> Tag, s: R.System): map<nat, Whole<CheckpointMeta>> {
    map h | h in s.sent :: Carries(tags, s.sent[h])
  }

  // Only chunks of submitted operations have reached the receiver.
  ghost predicate HonestLog(tags: nat -> Tag, s: System, p: PeerId) {
    V.HonestChunks(ContentOf(tags, s.sender), LogOf(s, p))
  }

  ghost predicate Backed(tags: nat -> Tag, s: System, h: nat) {
    h in s.sender.sent && V.Entry(h, Carries(tags, s.sender.sent[h])) in CommittedAt(s, s.sender.sent[h].peer)
  }

  ghost predicate Inv(tags: nat -> Tag, s: System) {
    && R.Sound(s.sender)
    && (forall p :: HonestLog(tags, s, p))
    && (forall h :: h in s.sender.answered ==> Backed(tags, s, h))
  }

  lemma HonestStays(tags: nat -> Tag, s: R.System, s': R.System, log: seq<V.Event>)
    requires SentGrows(s, s') || s'.sent == s.sent
    requires V.HonestChunks(ContentOf(tags, s), log)
    ensures V.HonestChunks(ContentOf(tags, s'), log)
  {
  }

  lemma SenderStepKeeps(tags: nat -> Tag, s: System, e: R.Event)
    requires Inv(tags, s) && !e.Answers?
    ensures Inv(tags, s.(sender := R.Step(s.sender, e)))
  {
    var s' := s.(sender := R.Step(s.sender, e));
    R.StepKeeps(s.sender, e);
    SenderGrows(s.sender, e);
    forall p ensures HonestLog(tags, s', p) {
      assert HonestLog(tags, s, p);
      HonestStays(tags, s.sender, s'.sender, LogOf(s, p));
    }
    forall h | h in s'.sender.answered ensures Backed(tags, s', h) {
      assert Backed(tags, s, h);
      assert CommittedAt(s', s.sender.sent[h].peer) == CommittedAt(s, s.sender.sent[h].peer);
    }
  }

  // A receiver forgets nothing that it committed.
  lemma FedCommits(s: System, p: PeerId, e: V.Event, q: PeerId)
    ensures CommittedAt(s, q) <= CommittedAt(Fed(s, p, e), q)
  {
    var log := LogOf(s, p);
    assert (log + [e])[..|log|] == log;
    StepCommits(V.Run(V.COMPLETED_WINDOW, log), e);
  }

  lemma StepCommits(r: V.Receiver, e: V.Event)
    ensures forall x :: x in r.committed ==> x in V.Step(V.COMPLETED_WINDOW, r, e).committed
  {
  }

  lemma FedKeeps(tags: nat -> Tag, s: System, p: PeerId, e: V.Event)
    requires Inv(tags, s)
    requires e.Arrives? ==> RG.Honest(CHECKPOINT, ContentOf(tags, s.sender), e.id, e.chunk)
    ensures Inv(tags, Fed(s, p, e))
  {
    var s' := Fed(s, p, e);
    forall q ensures HonestLog(tags, s', q) { assert HonestLog(tags, s, q); }
    forall h | h in s'.sender.answered ensures Backed(tags, s', h) {
      assert Backed(tags, s, h);
      FedCommits(s, p, e, s.sender.sent[h].peer);
    }
  }

  lemma ReconnectKeeps(tags: nat -> Tag, s: System, p: PeerId)
    requires Inv(tags, s)
    ensures Inv(tags, Step(tags, s, Reconnects(p)))
  {
    var s' := Step(tags, s, Reconnects(p));
    forall q ensures HonestLog(tags, s', q) { assert HonestLog(tags, s, q); }
    forall h | h in s'.sender.answered ensures Backed(tags, s', h) {
      assert Backed(tags, s, h);
      assert CommittedAt(s, s.sender.sent[h].peer) <= CommittedAt(s', s.sender.sent[h].peer);
    }
  }

  // What the receiver acknowledges under a MessageId is what was sent under it, and it
  // has committed that.
  lemma AcknowledgedIsBacked(tags: nat -> Tag, s: System, h: nat)
    requires Inv(tags, s) && HasAcknowledged(s, h)
    ensures Backed(tags, s, h)
  {
    var p := s.sender.sent[h].peer;
    var e :| e in ReceiverOf(s, p).acknowledged && e.id == h;
    assert HonestLog(tags, s, p);
    V.AcknowledgedIsSenders(V.COMPLETED_WINDOW, ContentOf(tags, s.sender), LogOf(s, p), e);
    assert e == V.Entry(h, Carries(tags, s.sender.sent[h]));
  }

  lemma AnswerKeeps(tags: nat -> Tag, s: System, h: nat)
    requires Inv(tags, s) && HasAcknowledged(s, h)
    ensures Inv(tags, s.(sender := R.Step(s.sender, R.Answers(h))))
  {
    var s' := s.(sender := R.Step(s.sender, R.Answers(h)));
    AcknowledgedIsBacked(tags, s, h);
    R.StepKeeps(s.sender, R.Answers(h));
    forall p ensures HonestLog(tags, s', p) {
      assert HonestLog(tags, s, p);
      HonestStays(tags, s.sender, s'.sender, LogOf(s, p));
    }
    forall g | g in s'.sender.answered ensures Backed(tags, s', g) {
      assert Backed(tags, s, g);
      assert CommittedAt(s', s.sender.sent[g].peer) == CommittedAt(s, s.sender.sent[g].peer);
    }
  }

  lemma StepKeeps(tags: nat -> Tag, s: System, e: Event)
    requires Inv(tags, s)
    ensures Inv(tags, Step(tags, s, e))
  {
    match e
    case AtSender(event) => if !event.Answers? { SenderStepKeeps(tags, s, event); }
    case ChunkArrives(h, i, now, term) =>
      if h in s.sender.sent && i < CountFor(CHECKPOINT, |s.sender.sent[h].wire|) {
        var hop := s.sender.sent[h];
        FedKeeps(tags, s, hop.peer, V.Arrives(h, ChunkAt(CHECKPOINT, MetaOf(tags, hop), hop.wire, i), now, term));
      }
    case Decides(p, verdict, term) => FedKeeps(tags, s, p, V.Decided(verdict, term));
    case GenerationChanges(p, cleared) => FedKeeps(tags, s, p, V.GenerationChanges(cleared));
    case Reconnects(p) => ReconnectKeeps(tags, s, p);
    case ReceiverAnswers(h) => if HasAcknowledged(s, h) { AnswerKeeps(tags, s, h); }
  }

  lemma {:induction false} RunKeeps(tags: nat -> Tag, s: System, events: seq<Event>)
    requires Inv(tags, s)
    ensures Inv(tags, Run(tags, s, events))
  {
    if events != [] {
      RunKeeps(tags, s, events[..|events| - 1]);
      StepKeeps(tags, Run(tags, s, events[..|events| - 1]), events[|events| - 1]);
    }
  }

  // The peer's receiver committed the published bytes, with the term and validation flag
  // of that publication.
  ghost predicate PeerCommitted(tags: nat -> Tag, s: System, pub: nat, p: PeerId) {
    && pub in s.sender.published
    && exists e :: e in CommittedAt(s, p) && e.whole.bytes == s.sender.published[pub]
                   && e.whole.meta.term == tags(pub).term && e.whole.meta.validate == tags(pub).validate
  }

  lemma AnsweredIsCommitted(tags: nat -> Tag, s: System, pub: nat, p: PeerId)
    requires Inv(tags, s) && R.AnsweredBy(s.sender, pub, p)
    ensures PeerCommitted(tags, s, pub, p)
  {
    var h :| h in s.sender.answered && h in s.sender.sent && s.sender.sent[h].peer == p
             && s.sender.sent[h].publication == pub && s.sender.sent[h].wire == s.sender.published[pub];
    assert Backed(tags, s, h);
    assert V.Entry(h, Carries(tags, s.sender.sent[h])) in CommittedAt(s, p);
  }

  // In every run of the coordinator and all receivers together, with any loss, repetition
  // and reordering of chunks, awaited validations and new connections: a publication is
  // DURABLE exactly when every peer of its fixed required set is recorded as
  // acknowledged; each such peer's receiver committed exactly the published bytes under
  // that publication's term and flag; and the completion fires once, when no peer waits.
  lemma DurableMeansCommitted(tags: nat -> Tag, members: set<PeerId>, ready: set<PeerId>, coordinates: bool,
                              events: seq<Event>, pub: nat)
    requires pub in Run(tags, Begin(R.Start(members, ready, coordinates)), events).sender.group.handles
    ensures var end := Run(tags, Begin(R.Start(members, ready, coordinates)), events);
            var h := end.sender.group.handles[pub];
            && (h.status == H.Durable <==> forall p :: p in h.results ==> h.results[p] == H.Acknowledged)
            && (forall p :: p in h.results && h.results[p] == H.Acknowledged ==> PeerCommitted(tags, end, pub, p))
            && (h.status == H.Durable ==> forall p :: p in h.results ==> PeerCommitted(tags, end, pub, p))
            && h.completions <= 1 && (h.completions == 1 <==> forall p :: p in h.results ==> h.results[p] != H.Pending)
  {
    var start := Begin(R.Start(members, ready, coordinates));
    assert Inv(tags, start);
    RunKeeps(tags, start, events);
    var end := Run(tags, start, events);
    var h := end.sender.group.handles[pub];
    forall p | p in h.results && h.results[p] == H.Acknowledged ensures PeerCommitted(tags, end, pub, p) {
      assert R.AnsweredBy(end.sender, pub, p);
      AnsweredIsCommitted(tags, end, pub, p);
    }
    assert H.Consistent(h);
  }

  // ---------- what DURABLE needs ----------

  lemma SenderStays(tags: nat -> Tag, s: System, e: Event, pub: nat)
    requires Inv(tags, s) && pub in s.sender.group.handles
    ensures var s' := Step(tags, s, e);
            && pub in s'.sender.group.handles && CG.Forward(s.sender.group.handles[pub], s'.sender.group.handles[pub])
            && pub in s.sender.published && pub in s'.sender.published && s'.sender.published[pub] == s.sender.published[pub]
  {
    var event := if e.AtSender? then e.event else if e.ReceiverAnswers? then R.Answers(e.hop) else R.Answers(0);
    R.StepForward(s.sender, event);
    R.PublishedStay(s.sender, event, pub);
    assert Step(tags, s, e).sender == s.sender || Step(tags, s, e).sender == R.Step(s.sender, event);
  }

  lemma {:induction false} PublicationStays(tags: nat -> Tag, s: System, events: seq<Event>, pub: nat)
    requires Inv(tags, s) && pub in s.sender.group.handles
    ensures var end := Run(tags, s, events);
            && pub in end.sender.group.handles && CG.Forward(s.sender.group.handles[pub], end.sender.group.handles[pub])
            && pub in s.sender.published && pub in end.sender.published && end.sender.published[pub] == s.sender.published[pub]
  {
    if events != [] {
      var front := events[..|events| - 1];
      PublicationStays(tags, s, front, pub);
      RunKeeps(tags, s, front);
      SenderStays(tags, Run(tags, s, front), events[|events| - 1], pub);
    }
  }

  // The receiver of the peer committed these bytes, with the term and flag of the publication.
  ghost predicate HasCommitted(s: System, p: PeerId, bytes: seq<Byte>, tag: Tag) {
    exists e :: e in CommittedAt(s, p) && e.whole.bytes == bytes && e.whole.meta.term == tag.term && e.whole.meta.validate == tag.validate
  }

  // A publication accepted in any run, whatever follows: it is DURABLE exactly when every
  // peer that its requirement names is recorded as acknowledged, and then every one of
  // them has committed the published bytes; when it names none, it is durable at once.
  lemma DurableNeedsEveryPeer(tags: nat -> Tag, members: set<PeerId>, ready: set<PeerId>, coordinates: bool, before: seq<Event>,
                              publishes: R.Event, after: seq<Event>)
    requires publishes.Publishes?
    requires var s := Run(tags, Begin(R.Start(members, ready, coordinates)), before);
             s.sender.group.nextId in Step(tags, s, AtSender(publishes)).sender.group.handles
    ensures var s := Run(tags, Begin(R.Start(members, ready, coordinates)), before);
            var (published, pub) := (Step(tags, s, AtSender(publishes)), s.sender.group.nextId);
            && (published.sender.group.handles[pub].status == H.Durable <==> forall p :: !CG.Awaits(publishes.requirement, s.sender.members, p))
            && NeedsEvery(tags, Run(tags, published, after), pub, publishes.requirement, s.sender.members, publishes.bytes)
  {
    var start := Begin(R.Start(members, ready, coordinates));
    assert Inv(tags, start);
    RunKeeps(tags, start, before);
    var s := Run(tags, start, before);
    var (published, pub) := (Step(tags, s, AtSender(publishes)), s.sender.group.nextId);
    R.PublicationStarts(s.sender, publishes.requirement, publishes.bytes, publishes.now, publishes.order);
    StepKeeps(tags, s, AtSender(publishes));
    StaysRequired(tags, published, after, pub, publishes.requirement, s.sender.members, publishes.bytes);
  }

  ghost predicate NeedsEvery(tags: nat -> Tag, s: System, pub: nat, requirement: CG.Requirement, members: set<PeerId>, bytes: seq<Byte>) {
    && pub in s.sender.group.handles
    && (var h := s.sender.group.handles[pub];
        && (forall p :: p in h.results <==> CG.Awaits(requirement, members, p))
        && (h.status == H.Durable <==> forall p :: CG.Awaits(requirement, members, p) ==> h.results[p] == H.Acknowledged)
        && (h.status == H.Durable ==> forall p :: CG.Awaits(requirement, members, p) ==> HasCommitted(s, p, bytes, tags(pub))))
  }

  lemma StaysRequired(tags: nat -> Tag, s: System, events: seq<Event>, pub: nat, requirement: CG.Requirement, members: set<PeerId>,
                      bytes: seq<Byte>)
    requires Inv(tags, s) && pub in s.sender.group.handles && CG.AsRequired(requirement, members, s.sender.group.handles[pub])
    requires pub in s.sender.published && s.sender.published[pub] == bytes
    ensures NeedsEvery(tags, Run(tags, s, events), pub, requirement, members, bytes)
  {
    PublicationStays(tags, s, events, pub);
    RunKeeps(tags, s, events);
    AcknowledgedHaveCommitted(tags, Run(tags, s, events), pub);
  }

  lemma AcknowledgedHaveCommitted(tags: nat -> Tag, s: System, pub: nat)
    requires Inv(tags, s) && pub in s.sender.group.handles && pub in s.sender.published
    ensures var h := s.sender.group.handles[pub];
            && (h.status == H.Durable <==> forall p :: p in h.results ==> h.results[p] == H.Acknowledged)
            && (forall p :: p in h.results && h.results[p] == H.Acknowledged ==> HasCommitted(s, p, s.sender.published[pub], tags(pub)))
  {
    var h := s.sender.group.handles[pub];
    assert H.Consistent(h);
    forall p | p in h.results && h.results[p] == H.Acknowledged ensures HasCommitted(s, p, s.sender.published[pub], tags(pub)) {
      assert R.AnsweredBy(s.sender, pub, p);
      AnsweredIsCommitted(tags, s, pub, p);
    }
  }
}
