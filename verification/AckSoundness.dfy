/**
 What REMOTE_ACKNOWLEDGED means in a run of RoutedDelivery, and when a destination's
 answer to stale traffic can break it.
 */
module AckSoundness {
  import opened Types
  import opened RelayTable
  import opened RelayController
  import MR = MemberRouter
  import RR = RelayRuns
  import opened Dedup
  import opened RoutedDelivery

  // ---------- the invariant ----------

  // The content of an operation is fixed by its source when it is originated.
  predicate Known(sys: System, op: Operation) {
    op.Key() in sys.issued && sys.issued[op.Key()] == op
  }

  // A peer that waits for the ACK of this hop, or may send the hop again.
  ghost predicate Retains(q: Peer, hop: nat) {
    hop in q.hops || exists r :: r in q.relays && r.hop == hop
  }

  predicate HasRelay(q: Peer, key: MessageKey) { Find(q.relays, key).Some? }

  // The handle has its final state.
  predicate Over(q: Peer, id: GroupMessageId) { id in q.handles && q.handles[id].Terminal() }

  // A delivery ACK of `c` can no longer complete the operation's handle: its send is not
  // live any more, its session is closed under another coordinator, or it is over.
  predicate Unheard(sys: System, c: PeerId, op: Operation) {
    op.source in sys.peers ==>
      var q := sys.peers[op.source];
      op.id !in q.sends.live || (!q.open && q.coordinator != c) || Over(q, op.id)
  }

  // An ACK of this hop can no longer complete the handle of its operation: the coordinator
  // gave the hop up; or the operation is its own and has no relay or is over; or nobody
  // listens, or no relay is left and the closed session admits no new one.
  ghost predicate Harmless(sys: System, c: PeerId, hop: nat, op: Operation) {
    c in sys.peers ==>
      var q := sys.peers[c];
      || !Retains(q, hop)
      || (if op.source == c then !HasRelay(q, op.Key()) || Over(q, op.id)
          else Unheard(sys, c, op) || (!q.open && !HasRelay(q, op.Key())))
  }

  ghost predicate SourceSound(sys: System, p: PeerId, q: Peer) {
    && (forall id :: id in q.sends.live ==>
          q.sends.live[id].id == id && q.sends.live[id].source == p && Known(sys, q.sends.live[id]))
    && (forall key :: key in sys.issued && key.source == p ==> key.id < q.nextId)
    && PassesSound(sys, p, q.passes)
  }

  // A peer submits operations of its own, and never to itself.
  ghost predicate PassesSound(sys: System, p: PeerId, passes: seq<Pass>) {
    forall k :: 0 <= k < |passes| ==> PassSound(sys, p, passes[k])
  }

  ghost predicate PassSound(sys: System, p: PeerId, pass: Pass) {
    pass.to != p && forall op :: op in pass.rest ==> op.source == p && Known(sys, op)
  }

  ghost predicate RelaysSound(sys: System, q: Peer) {
    forall r :: r in q.relays ==> Known(sys, r.op) && r.hop in sys.bound && sys.bound[r.hop] == Binding(r.op, true)
  }

  ghost predicate HopsSound(sys: System, q: Peer) {
    forall h :: h in q.hops ==>
      h in sys.bound && sys.bound[h].finalHop == q.hops[h].finalHop && sys.bound[h].op.Key() == q.hops[h].key
  }

  ghost predicate CachesSound(q: Peer) {
    && (forall op :: op in q.routed ==> Accepted(q, op))
    && (forall op :: op in q.session ==> op in q.delivered)
  }

  // A handle is REMOTE_ACKNOWLEDGED only for an operation its destination accepted.
  ghost predicate HandlesSound(sys: System, p: PeerId, q: Peer) {
    forall id :: id in q.handles && q.handles[id] == RemoteAcknowledged ==>
      MessageKey(p, id) in sys.issued && Committed(sys, sys.issued[MessageKey(p, id)])
  }

  // Only operations that their source originated, with that content, are ever accepted.
  ghost predicate AcceptedKnown(sys: System, q: Peer) {
    forall op :: Accepted(q, op) ==> Known(sys, op)
  }

  ghost predicate PeerSound(sys: System, p: PeerId, q: Peer) {
    SourceSound(sys, p, q) && RelaysSound(sys, q) && HopsSound(sys, q) && CachesSound(q) && AcceptedKnown(sys, q)
    && HandlesSound(sys, p, q) && (forall r :: r in q.relays ==> r.op.destination != p)
  }

  ghost predicate MessageSound(sys: System, m: Message) {
    match m
    case Reliable(from, to, hop, op) =>
      hop in sys.bound && sys.bound[hop].op == op && from != to && (sys.bound[hop].finalHop ==> to == op.destination)
    case GenericAck(_, to, hop) =>
      && hop in sys.bound
      && (sys.bound[hop].finalHop ==> Committed(sys, sys.bound[hop].op) || Harmless(sys, to, hop, sys.bound[hop].op))
    case DeliveryAck(from, _, receipt) =>
      && receipt.key in sys.issued
      && (Committed(sys, sys.issued[receipt.key]) || Unheard(sys, from, sys.issued[receipt.key]))
    case RouteStatus(_, _, _) => true
  }

  ghost predicate NamesSound(sys: System) {
    && (forall h :: h in sys.bound ==> h < sys.nextHop && Known(sys, sys.bound[h].op))
    && (forall key :: key in sys.issued ==> sys.issued[key].Key() == key)
  }

  ghost predicate Inv(sys: System) {
    && NamesSound(sys)
    && (forall p :: p in sys.peers ==> PeerSound(sys, p, sys.peers[p]))
    && (forall m :: m in sys.net ==> MessageSound(sys, m))
  }

  // ---------- framing: one peer changes ----------

  // Nothing that other peers or old messages rely on goes away.
  ghost predicate Grows(old_: System, new_: System) {
    && (forall key :: key in old_.issued ==> key in new_.issued && new_.issued[key] == old_.issued[key])
    && (forall h :: h in old_.bound ==> h in new_.bound && new_.bound[h] == old_.bound[h])
  }

  ghost predicate KeepsAccepted(q: Peer, q': Peer) {
    forall op :: Accepted(q, op) ==> Accepted(q', op)
  }

  ghost predicate RetainsNothingOld(sys: System, q: Peer, q': Peer) {
    forall h :: h in sys.bound && sys.bound[h].finalHop && Retains(q', h) ==> Retains(q, h)
  }

  // The operations that a bound hop or a delivery ACK already names.
  ghost predicate Used(sys: System, key: MessageKey) {
    || (exists h :: h in sys.bound && sys.bound[h].op.Key() == key)
    || (exists m :: m in sys.net && m.DeliveryAck? && m.receipt.key == key)
  }

  // What is harmless stays so: no old send comes back to life, a closed session stays as
  // it is, a final handle stays final, and relays of the peer's own old operations, or at
  // a closed session, only go away.
  ghost predicate Tames(sys: System, p: PeerId, q: Peer, q': Peer) {
    && (forall id :: id in q'.sends.live && Used(sys, MessageKey(p, id)) ==> id in q.sends.live)
    && (!q.open ==> !q'.open && q'.coordinator == q.coordinator)
    && (forall id :: Over(q, id) && Used(sys, MessageKey(p, id)) ==> Over(q', id))
    && (forall key :: HasRelay(q', key) && (key.source == p || !q.open) && Used(sys, key) ==> HasRelay(q, key))
  }

  // The effect of a step at `p` on names and on `p`: its new state is sound, nothing it
  // accepted goes away, and it retains no hop it did not retain before, except fresh ones.
  ghost predicate GoodChange(sys: System, sys': System, p: PeerId) {
    && p in sys.peers && p in sys'.peers && sys'.peers == sys.peers[p := sys'.peers[p]]
    && Grows(sys, sys') && NamesSound(sys')
    && (forall key :: key in sys'.issued && key !in sys.issued ==> key.source == p)
    && KeepsAccepted(sys.peers[p], sys'.peers[p])
    && RetainsNothingOld(sys, sys.peers[p], sys'.peers[p])
    && PeerSound(sys', p, sys'.peers[p])
    && Tames(sys, p, sys.peers[p], sys'.peers[p])
  }

  lemma OtherPeerStillSound(sys: System, sys': System, p: PeerId, other: PeerId)
    requires GoodChange(sys, sys', p) && other in sys.peers && other != p
    requires PeerSound(sys, other, sys.peers[other])
    ensures PeerSound(sys', other, sys'.peers[other])
  {
    var q := sys.peers[other];
    assert sys'.peers[other] == q;
    assert SourceSound(sys', other, q);
    assert RelaysSound(sys', q);
    assert HopsSound(sys', q);
    assert HandlesSound(sys', other, q);
  }

  lemma UnheardStays(sys: System, sys': System, p: PeerId, c: PeerId, op: Operation)
    requires p in sys.peers && p in sys'.peers && sys'.peers == sys.peers[p := sys'.peers[p]]
    requires Tames(sys, p, sys.peers[p], sys'.peers[p]) && Used(sys, op.Key()) && Unheard(sys, c, op)
    ensures Unheard(sys', c, op)
  {
    assert op.Key() == MessageKey(op.source, op.id);
  }

  lemma HarmlessStays(sys: System, sys': System, p: PeerId, c: PeerId, hop: nat)
    requires GoodChange(sys, sys', p) && hop in sys.bound && sys.bound[hop].finalHop
    requires Harmless(sys, c, hop, sys.bound[hop].op)
    ensures Harmless(sys', c, hop, sys.bound[hop].op)
  {
    var op := sys.bound[hop].op;
    assert Used(sys, op.Key()) && op.Key() == MessageKey(op.source, op.id);
    if Unheard(sys, c, op) { UnheardStays(sys, sys', p, c, op); }
  }

  lemma MessageStaysSound(sys: System, sys': System, p: PeerId, m: Message)
    requires GoodChange(sys, sys', p) && MessageSound(sys, m) && (m.DeliveryAck? ==> m in sys.net)
    ensures MessageSound(sys', m)
  {
    if m.GenericAck? && sys.bound[m.hop].finalHop {
      if Committed(sys, sys.bound[m.hop].op) {
        assert Committed(sys', sys.bound[m.hop].op);
      } else {
        HarmlessStays(sys, sys', p, m.to, m.hop);
      }
    } else if m.DeliveryAck? {
      var op := sys.issued[m.receipt.key];
      if Committed(sys, op) {
        assert Committed(sys', op);
      } else {
        assert Used(sys, m.receipt.key);
        UnheardStays(sys, sys', p, m.from, op);
      }
    }
  }

  // Every message of the next state is an old one or sound.
  ghost predicate GoodMessages(sys: System, sys': System) {
    forall m :: m in sys'.net && m !in sys.net ==> MessageSound(sys', m)
  }

  lemma GoodStepKeepsInv(sys: System, sys': System, p: PeerId)
    requires Inv(sys) && GoodChange(sys, sys', p) && GoodMessages(sys, sys')
    ensures Inv(sys')
  {
    forall other | other in sys'.peers ensures PeerSound(sys', other, sys'.peers[other]) {
      if other != p { OtherPeerStillSound(sys, sys', p, other); }
    }
    forall m | m in sys'.net ensures MessageSound(sys', m) {
      if m in sys.net { MessageStaysSound(sys, sys', p, m); }
    }
  }

  lemma WithTwice(sys: System, p: PeerId, q1: Peer, q2: Peer)
    ensures With(With(sys, p, q1, {}), p, q2, {}) == With(sys, p, q2, {})
    ensures With(sys, p, q1, {}).peers[p] == q1
  {
  }

  // ---------- steps that only give something up ----------

  // The peer keeps what it accepted, and its relays, waiting hops, live sends and
  // acknowledged handles can only become fewer.
  ghost predicate Lessens(q: Peer, q': Peer) {
    && (forall r :: r in q'.relays ==> r in q.relays)
    && (forall h :: h in q'.hops ==> h in q.hops && q'.hops[h] == q.hops[h])
    && (forall id :: id in q'.sends.live ==> id in q.sends.live && q'.sends.live[id] == q.sends.live[id])
    && q'.nextId == q.nextId && q'.passes == q.passes && q'.swallowed == q.swallowed
    && q'.delivered == q.delivered && q'.handoff == q.handoff && q'.dropped == q.dropped && q'.session == q.session
    && (forall op :: op in q'.routed ==> op in q.routed)
    && (forall id :: id in q'.handles && q'.handles[id] == RemoteAcknowledged ==>
          id in q.handles && q.handles[id] == RemoteAcknowledged)
    && (!q.open ==> !q'.open && q'.coordinator == q.coordinator)
    && (forall id :: Over(q, id) ==> Over(q', id))
  }

  lemma LessenedTames(sys: System, p: PeerId, q: Peer, q': Peer)
    requires Lessens(q, q')
    ensures Tames(sys, p, q, q')
  {
    forall key | HasRelay(q', key) ensures HasRelay(q, key) {
      assert Find(q'.relays, key).value in q.relays;
    }
  }

  lemma LessenedIsSound(sys: System, sys': System, p: PeerId, q: Peer, q': Peer)
    requires p in sys.peers && sys.peers[p] == q && sys' == sys.(peers := sys.peers[p := q'])
    requires PeerSound(sys, p, q) && Lessens(q, q')
    ensures PeerSound(sys', p, q')
  {
    assert forall op :: Accepted(q, op) <==> Accepted(q', op);
    assert SourceSound(sys', p, q');
    assert RelaysSound(sys', q');
    assert HopsSound(sys', q');
    assert HandlesSound(sys', p, q');
  }

  lemma LesserKeepsInv(sys: System, p: PeerId, q': Peer, messages: set<Message>)
    requires Inv(sys) && p in sys.peers && Lessens(sys.peers[p], q')
    requires forall m :: m in messages ==> m.RouteStatus?
    ensures Inv(With(sys, p, q', messages))
  {
    var sys1 := sys.(peers := sys.peers[p := q']);
    LessenedIsSound(sys, sys1, p, sys.peers[p], q');
    LessenedTames(sys, p, sys.peers[p], q');
    assert GoodChange(sys, sys1, p);
    GoodStepKeepsInv(sys, sys1, p);
    AddMessages(sys1, p, messages);
  }

  lemma AddMessages(sys: System, p: PeerId, messages: set<Message>)
    requires Inv(sys) && p in sys.peers
    requires forall m :: m in messages ==> MessageSound(sys, m)
    ensures Inv(sys.(net := sys.net + messages))
  {
    var sys' := sys.(net := sys.net + messages);
    forall q | q in sys'.peers ensures PeerSound(sys', q, sys'.peers[q]) {
      assert PeerSound(sys, q, sys.peers[q]);
      assert SourceSound(sys', q, sys.peers[q]);
      assert HandlesSound(sys', q, sys.peers[q]);
    }
    forall m | m in sys'.net ensures MessageSound(sys', m) {
      assert MessageSound(sys, m);
    }
  }

  lemma CompleteLessens(q: Peer, id: GroupMessageId, state: SendState)
    requires state != RemoteAcknowledged
    ensures Lessens(q, Complete(q, id, state))
  {
  }

  lemma GivingUpKeepsInv(cfg: Config, sys: System, e: Event)
    requires Inv(sys)
    requires e.DestinationGone? || e.CancelSend? || e.Commit? || e.Leave? || e.HopDropped? || e.Resumes?
    ensures Inv(Step(cfg, sys, e))
  {
    match e
    case DestinationGone(p, d, status) => DestinationGoneKeepsInv(sys, p, d, status);
    case CancelSend(p, id, sessions) => CancelKeepsInv(cfg, sys, p, id, sessions);
    case Commit(p, c, members) => CommitKeepsInv(sys, p, c, members);
    case Leave(p) => if p in sys.peers { LesserKeepsInv(sys, p, sys.peers[p].(open := false), {}); }
    case HopDropped(p, hop) =>
      if p in sys.peers && hop in sys.peers[p].hops { WithoutHopKeepsInv(sys, p, hop); }
    case Resumes(p, key) => ResumesKeepsInv(sys, p, key);
  }

  lemma ResumesKeepsInv(sys: System, p: PeerId, key: MessageKey)
    requires Inv(sys)
    ensures Inv(ResumesStep(sys, p, key))
  {
    if ResumesStep(sys, p, key) != sys {
      var r := Find(sys.peers[p].relays, key).value;
      assert PeerSound(sys, p, sys.peers[p]);
      AddMessages(sys, p, {FinalHop(p, r)});
      assert sys.peers == sys.peers[p := sys.peers[p]];
    }
  }

  lemma WithoutHopKeepsInv(sys: System, p: PeerId, hop: nat)
    requires Inv(sys) && p in sys.peers
    ensures var q' := sys.peers[p].(hops := WithoutHop(sys.peers[p].hops, hop));
            Inv(With(sys, p, q', {})) && Lessens(sys.peers[p], q')
  {
    LesserKeepsInv(sys, p, sys.peers[p].(hops := WithoutHop(sys.peers[p].hops, hop)), {});
  }

  lemma CommitKeepsInv(sys: System, p: PeerId, c: PeerId, members: set<PeerId>)
    requires Inv(sys)
    ensures Inv(CommitStep(sys, p, c, members))
  {
    var sys' := CommitStep(sys, p, c, members);
    if sys' != sys { LesserKeepsInv(sys, p, sys'.peers[p], {}); }
  }

  lemma DestinationGoneKeepsInv(sys: System, p: PeerId, d: PeerId, status: RelayStatus)
    requires Inv(sys)
    ensures Inv(DestinationGoneStep(sys, p, d, status))
  {
    if p in sys.peers && sys.peers[p].coordinator == p {
      var q := sys.peers[p];
      RR.OutsideMembers(q.relays, OnlyTo(d));
      var signals := set r | r in Inside(q.relays, OnlyTo(d)) && r.op.source != p
                       :: RouteStatus(p, r.op.source, SignalFor(r.op, status));
      LesserKeepsInv(sys, p, q.(relays := Outside(q.relays, OnlyTo(d))), signals);
    }
  }

  lemma CancelKeepsInv(cfg: Config, sys: System, p: PeerId, id: GroupMessageId, sessions: set<nat>)
    requires Inv(sys)
    ensures Inv(CancelStep(cfg, sys, p, id, sessions))
  {
    if p in sys.peers && id in sys.peers[p].handles && !sys.peers[p].handles[id].Terminal() {
      CancelLessens(cfg, sys, p, id, sessions);
      LesserKeepsInv(sys, p, CancelStep(cfg, sys, p, id, sessions).peers[p], {});
    }
  }

  lemma CancelLessens(cfg: Config, sys: System, p: PeerId, id: GroupMessageId, sessions: set<nat>)
    requires p in sys.peers && id in sys.peers[p].handles && !sys.peers[p].handles[id].Terminal()
    ensures var q' := CancelStep(cfg, sys, p, id, sessions).peers[p];
            && CancelStep(cfg, sys, p, id, sessions) == With(sys, p, q', {})
            && Lessens(sys.peers[p], q')
  {
    CancelledSends(sys.peers[p].sends, cfg.caps, id, sessions);
  }

  lemma CancelledSends(sends: MR.Sends, caps: MR.Caps, id: GroupMessageId, sessions: set<nat>)
    ensures var live := MR.Cancel(sends, caps, id, sessions).1.live;
            forall other :: other in live ==> other in sends.live && live[other] == sends.live[other]
  {
  }

  // ---------- signalling ----------

  lemma SignalKeepsInv(sys: System, p: PeerId, m: Message, reach: Reach)
    requires Inv(sys)
    ensures Inv(SignalArrivesStep(sys, p, m, reach))
  {
    var sys' := SignalArrivesStep(sys, p, m, reach);
    if sys' != sys {
      assert MessageSound(sys, m);
      if m.DeliveryAck? {
        AckedAtSource(sys, p, m, reach);
      } else {
        StatusLessens(sys, p, m, reach);
        LesserKeepsInv(sys, p, sys'.peers[p], {});
      }
    }
  }

  lemma StatusLessens(sys: System, p: PeerId, m: Message, reach: Reach)
    requires m.RouteStatus? && SignalArrivesStep(sys, p, m, reach) != sys
    ensures p in sys.peers && Lessens(sys.peers[p], SignalArrivesStep(sys, p, m, reach).peers[p])
    ensures SignalArrivesStep(sys, p, m, reach) == With(sys, p, SignalArrivesStep(sys, p, m, reach).peers[p], {})
  {
  }

  // A delivery ACK that a source accepts names one of its own live sends.
  lemma AppliedAck(s: MR.Sends, view: MR.View, from: PeerId, receipt: Receipt)
    requires MR.OnDeliveryAck(s, view, from, receipt).0.Ok? && MR.OnDeliveryAck(s, view, from, receipt).0.value.Applied?
    ensures receipt.key.id in s.live && s.live[receipt.key.id].source == receipt.key.source
    ensures MR.OnDeliveryAck(s, view, from, receipt)
            == (Ok(MR.Applied(RemoteAcknowledged)), s.(live := MR.Without(s.live, receipt.key.id)))
  {
  }

  function AfterAck(q: Peer, id: GroupMessageId): Peer { q.(sends := q.sends.(live := MR.Without(q.sends.live, id))) }

  lemma AckedStep(sys: System, p: PeerId, m: Message, reach: Reach)
    requires m.DeliveryAck? && SignalArrivesStep(sys, p, m, reach) != sys
    ensures p in sys.peers && m.receipt.key.id in sys.peers[p].sends.live && m.from == sys.peers[p].coordinator
    ensures sys.peers[p].sends.live[m.receipt.key.id].source == m.receipt.key.source
    ensures var q := AfterAck(sys.peers[p], m.receipt.key.id);
            SignalArrivesStep(sys, p, m, reach)
            == With(sys, p, if reach == AckFails then q else Complete(q, m.receipt.key.id, RemoteAcknowledged), {})
  {
    AppliedAck(sys.peers[p].sends, ViewOf(p, sys.peers[p]), m.from, m.receipt);
  }

  lemma AckedAtSource(sys: System, p: PeerId, m: Message, reach: Reach)
    requires Inv(sys) && m.DeliveryAck? && MessageSound(sys, m) && SignalArrivesStep(sys, p, m, reach) != sys
    ensures Inv(SignalArrivesStep(sys, p, m, reach))
  {
    var id := m.receipt.key.id;
    AckedStep(sys, p, m, reach);
    assert SourceSound(sys, p, sys.peers[p]) by { assert PeerSound(sys, p, sys.peers[p]); }
    assert m.receipt.key == MessageKey(p, id);
    AfterAckLessens(sys.peers[p], id);
    if reach == AckFails || Over(sys.peers[p], id) {
      LesserKeepsInv(sys, p, AfterAck(sys.peers[p], id), {});
    } else {
      SettledKeepsInv(sys, p, AfterAck(sys.peers[p], id), id);
    }
  }

  lemma AfterAckLessens(q: Peer, id: GroupMessageId)
    ensures Lessens(q, AfterAck(q, id))
    ensures Over(q, id) ==> Complete(AfterAck(q, id), id, RemoteAcknowledged) == AfterAck(q, id)
  {
  }

  // Giving something up and then completing a committed operation's handle.
  lemma SettledKeepsInv(sys: System, p: PeerId, q': Peer, id: GroupMessageId)
    requires Inv(sys) && p in sys.peers && Lessens(sys.peers[p], q') && q'.coordinator == sys.peers[p].coordinator
    requires MessageKey(p, id) in sys.issued && Committed(sys, sys.issued[MessageKey(p, id)])
    ensures Inv(With(sys, p, Complete(q', id, RemoteAcknowledged), {}))
  {
    LesserKeepsInv(sys, p, q', {});
    LessKeepsCommitted(sys, p, q', sys.issued[MessageKey(p, id)]);
    AcknowledgeKeepsInv(With(sys, p, q', {}), p, id);
    WithTwice(sys, p, q', Complete(q', id, RemoteAcknowledged));
  }

  lemma LessKeepsCommitted(sys: System, p: PeerId, q': Peer, op: Operation)
    requires p in sys.peers && Lessens(sys.peers[p], q') && Committed(sys, op)
    ensures Committed(With(sys, p, q', {}), op)
  {
  }

  // Completing a handle as acknowledged is sound once its operation is committed.
  lemma AcknowledgeKeepsInv(sys: System, p: PeerId, id: GroupMessageId)
    requires Inv(sys) && p in sys.peers
    requires MessageKey(p, id) in sys.issued && Committed(sys, sys.issued[MessageKey(p, id)])
    ensures Inv(With(sys, p, Complete(sys.peers[p], id, RemoteAcknowledged), {}))
  {
    var sys' := With(sys, p, Complete(sys.peers[p], id, RemoteAcknowledged), {});
    assert PeerSound(sys, p, sys.peers[p]);
    AcknowledgedIsSound(sys, p, id);
    assert GoodChange(sys, sys', p);
    GoodStepKeepsInv(sys, sys', p);
  }

  lemma AcknowledgedIsSound(sys: System, p: PeerId, id: GroupMessageId)
    requires p in sys.peers && PeerSound(sys, p, sys.peers[p])
    requires MessageKey(p, id) in sys.issued && Committed(sys, sys.issued[MessageKey(p, id)])
    ensures var q' := Complete(sys.peers[p], id, RemoteAcknowledged);
            && PeerSound(With(sys, p, q', {}), p, q')
            && KeepsAccepted(sys.peers[p], q') && RetainsNothingOld(sys, sys.peers[p], q')
            && Tames(sys, p, sys.peers[p], q')
  {
    var q := sys.peers[p];
    var q' := Complete(q, id, RemoteAcknowledged);
    var sys' := With(sys, p, q', {});
    assert forall op :: Accepted(q, op) <==> Accepted(q', op);
    assert forall op :: Committed(sys, op) ==> Committed(sys', op);
    assert SourceSound(sys', p, q') && RelaysSound(sys', q') && HopsSound(sys', q') && CachesSound(q');
    assert AcceptedKnown(sys', q');
    assert HandlesSound(sys', p, q');
  }

  lemma SourceHopTimeoutKeepsInv(cfg: Config, sys: System, p: PeerId, hop: nat, reach: Reach)
    requires Inv(sys) && p in sys.peers && hop in sys.peers[p].hops && !sys.peers[p].hops[hop].finalHop
    ensures Inv(HopTimesOutStep(cfg, sys, p, hop, reach))
  {
    var q := sys.peers[p];
    var id := q.hops[hop].key.id;
    var rest := q.(hops := WithoutHop(q.hops, hop));
    LesserKeepsInv(sys, p, rest, {});
    TimedOutLessens(q, rest, id);
    match MR.OnSourceHopTimeout(q.sends, id) {
      case (Ok(Some(state)), sends) => LesserKeepsInv(sys, p, Complete(rest.(sends := sends), id, state), {});
      case _ =>
    }
  }

  lemma TimedOutLessens(q: Peer, rest: Peer, id: GroupMessageId)
    requires Lessens(q, rest) && rest.sends == q.sends
    ensures match MR.OnSourceHopTimeout(q.sends, id)
            case (Ok(Some(state)), sends) => Lessens(q, Complete(rest.(sends := sends), id, state))
            case _ => true
  {
  }

  // ---------- fresh names ----------

  lemma BindKeepsInv(sys: System, p: PeerId, op: Operation, finalHop: bool)
    requires Inv(sys) && p in sys.peers && Known(sys, op)
    ensures Inv(Bind(sys, op, finalHop))
  {
    var sys' := Bind(sys, op, finalHop);
    var q := sys.peers[p];
    assert SourceSound(sys', p, q);
    assert RelaysSound(sys', q);
    assert HandlesSound(sys', p, q);
    assert GoodChange(sys, sys', p);
    GoodStepKeepsInv(sys, sys', p);
  }

  lemma NamedKeepsInv(sys: System, p: PeerId, op: Operation)
    requires Inv(sys) && p in sys.peers && op.source == p && op.id == sys.peers[p].nextId
    ensures Inv(Named(sys, p, op)) && Known(Named(sys, p, op), op) && !Used(Named(sys, p, op), op.Key())
  {
    var sys' := Named(sys, p, op);
    assert PeerSound(sys, p, sys.peers[p]);
    assert op.Key() !in sys.issued;
    assert Grows(sys, sys');
    NamedPeerSound(sys, p, op);
    assert NamesSound(sys');
    assert KeepsAccepted(sys.peers[p], sys'.peers[p]);
    assert RetainsNothingOld(sys, sys.peers[p], sys'.peers[p]);
    NamedTames(sys, p, op);
    GoodStepKeepsInv(sys, sys', p);
    NamedUnused(sys, p, op);
  }

  lemma NamedTames(sys: System, p: PeerId, op: Operation)
    requires Inv(sys) && p in sys.peers && op.source == p && op.Key() !in sys.issued
    ensures Tames(sys, p, sys.peers[p], Named(sys, p, op).peers[p])
  {
    NewNameUnused(sys, op.Key());
  }

  lemma NamedUnused(sys: System, p: PeerId, op: Operation)
    requires Inv(sys) && p in sys.peers && op.Key() !in sys.issued
    ensures !Used(Named(sys, p, op), op.Key())
  {
    NewNameUnused(sys, op.Key());
  }

  lemma NewNameUnused(sys: System, key: MessageKey)
    requires Inv(sys) && key !in sys.issued
    ensures !Used(sys, key)
  {
    forall m | m in sys.net && m.DeliveryAck? ensures m.receipt.key != key { assert MessageSound(sys, m); }
  }

  lemma NamedPeerSound(sys: System, p: PeerId, op: Operation)
    requires p in sys.peers && PeerSound(sys, p, sys.peers[p]) && op.source == p && op.id == sys.peers[p].nextId
    requires op.Key() !in sys.issued
    ensures PeerSound(Named(sys, p, op), p, Named(sys, p, op).peers[p])
  {
    var sys' := Named(sys, p, op);
    var q, q' := sys.peers[p], sys'.peers[p];
    assert SourceSound(sys', p, q');
    assert RelaysSound(sys', q');
    assert HopsSound(sys', q');
    assert forall other :: Accepted(q, other) <==> Accepted(q', other);
    NamedHandlesSound(sys, p, op);
  }

  lemma NamedHandlesSound(sys: System, p: PeerId, op: Operation)
    requires p in sys.peers && HandlesSound(sys, p, sys.peers[p]) && op.Key() !in sys.issued
    ensures HandlesSound(Named(sys, p, op), p, Named(sys, p, op).peers[p])
  {
    var sys' := Named(sys, p, op);
    forall id | id in sys'.peers[p].handles && sys'.peers[p].handles[id] == RemoteAcknowledged
      ensures MessageKey(p, id) in sys'.issued && Committed(sys', sys'.issued[MessageKey(p, id)])
    {
      var known := sys.issued[MessageKey(p, id)];
      assert Committed(sys, known);
      assert sys'.issued[MessageKey(p, id)] == known;
      assert Accepted(sys.peers[known.destination], known) == Accepted(sys'.peers[known.destination], known);
    }
  }

  // ---------- the source's own hop ----------

  lemma SubmitSourceHopKeepsInv(sys: System, p: PeerId, to: PeerId, op: Operation)
    requires Inv(sys) && p in sys.peers && Known(sys, op) && to != p
    ensures Inv(SubmitSourceHop(sys, p, to, op))
  {
    BindKeepsInv(sys, p, op, false);
    var sys1 := Bind(sys, op, false);
    var q := sys.peers[p];
    var hop := sys.nextHop;
    var q' := if op.mode == ReliableAcked then q.(hops := q.hops[hop := Hop(op.Key(), to, false)]) else q;
    WaitKeepsInv(sys1, p, to, q', hop);
    AddMessages(sys1.(peers := sys1.peers[p := q']), p, {Reliable(p, to, hop, op)});
  }

  // A peer that waits for the generic ACK of a source hop.
  ghost predicate WaitsMore(sys: System, q: Peer, q': Peer, to: PeerId, hop: nat) {
    hop in sys.bound && !sys.bound[hop].finalHop
    && (q' == q || q' == q.(hops := q.hops[hop := Hop(sys.bound[hop].op.Key(), to, false)]))
  }

  // Waiting for the generic ACK of a source hop retains nothing that could complete a
  // handle, but it does enter the hop table.
  lemma WaitKeepsInv(sys: System, p: PeerId, to: PeerId, q': Peer, hop: nat)
    requires Inv(sys) && p in sys.peers && WaitsMore(sys, sys.peers[p], q', to, hop)
    ensures Inv(sys.(peers := sys.peers[p := q']))
  {
    var sys' := sys.(peers := sys.peers[p := q']);
    assert PeerSound(sys, p, sys.peers[p]);
    WaitingIsSound(sys, p, to, q', hop);
    assert GoodChange(sys, sys', p);
    GoodStepKeepsInv(sys, sys', p);
  }

  lemma WaitingIsSound(sys: System, p: PeerId, to: PeerId, q': Peer, hop: nat)
    requires p in sys.peers && PeerSound(sys, p, sys.peers[p]) && WaitsMore(sys, sys.peers[p], q', to, hop)
    ensures PeerSound(sys.(peers := sys.peers[p := q']), p, q')
    ensures KeepsAccepted(sys.peers[p], q') && RetainsNothingOld(sys, sys.peers[p], q')
  {
    var sys' := sys.(peers := sys.peers[p := q']);
    assert forall op :: Accepted(sys.peers[p], op) <==> Accepted(q', op);
    assert SourceSound(sys', p, q');
    assert RelaysSound(sys', q');
    assert HopsSound(sys', q');
    assert HandlesSound(sys', p, q');
  }

  // Starting, advancing or ending a submission loop.
  lemma PassesKeepInv(sys: System, p: PeerId, passes: seq<Pass>)
    requires Inv(sys) && p in sys.peers && PassesSound(sys, p, passes)
    ensures Inv(With(sys, p, sys.peers[p].(passes := passes), {}))
  {
    var q' := sys.peers[p].(passes := passes);
    var sys' := With(sys, p, q', {});
    assert PeerSound(sys, p, sys.peers[p]);
    PassesAreSound(sys, p, passes);
    assert GoodChange(sys, sys', p);
    GoodStepKeepsInv(sys, sys', p);
  }

  lemma PassesAreSound(sys: System, p: PeerId, passes: seq<Pass>)
    requires p in sys.peers && PeerSound(sys, p, sys.peers[p]) && PassesSound(sys, p, passes)
    ensures var q' := sys.peers[p].(passes := passes);
            && PeerSound(With(sys, p, q', {}), p, q')
            && KeepsAccepted(sys.peers[p], q') && RetainsNothingOld(sys, sys.peers[p], q')
  {
    var q' := sys.peers[p].(passes := passes);
    var sys' := With(sys, p, q', {});
    assert forall op :: Accepted(sys.peers[p], op) <==> Accepted(q', op);
    assert forall k :: 0 <= k < |passes| ==> PassSound(sys', p, passes[k]);
    assert SourceSound(sys', p, q') && RelaysSound(sys', q') && HopsSound(sys', q');
    assert HandlesSound(sys', p, q');
  }

  // ---------- accepting an operation ----------

  lemma AcceptEffect(entries: seq<Operation>, op: Operation)
    ensures var (r, after) := Accept(entries, DEDUP_WINDOW, op);
            && (r == Ok(false) ==> op in entries)
            && (forall x :: x in after ==> x in entries || (x == op && r == Ok(true)))
  {
  }

  // A peer that accepts more and is otherwise unchanged.
  ghost predicate AcceptsMore(sys: System, q: Peer, q': Peer) {
    && KeepsAccepted(q, q') && CachesSound(q') && AcceptedKnown(sys, q')
    && q'.relays == q.relays && q'.hops == q.hops && q'.sends == q.sends && q'.nextId == q.nextId && q'.handles == q.handles
    && q'.coordinator == q.coordinator && q'.open == q.open && q'.passes == q.passes
  }

  lemma MoreAcceptedKeepsInv(sys: System, p: PeerId, q': Peer)
    requires Inv(sys) && p in sys.peers && AcceptsMore(sys, sys.peers[p], q')
    ensures Inv(With(sys, p, q', {}))
  {
    var sys' := With(sys, p, q', {});
    assert PeerSound(sys, p, sys.peers[p]);
    MoreAcceptedIsSound(sys, p, q');
    assert GoodChange(sys, sys', p);
    GoodStepKeepsInv(sys, sys', p);
  }

  lemma MoreAcceptedIsSound(sys: System, p: PeerId, q': Peer)
    requires p in sys.peers && PeerSound(sys, p, sys.peers[p]) && AcceptsMore(sys, sys.peers[p], q')
    ensures PeerSound(With(sys, p, q', {}), p, q')
    ensures RetainsNothingOld(sys, sys.peers[p], q') && Tames(sys, p, sys.peers[p], q')
  {
    var sys' := With(sys, p, q', {});
    assert forall op :: Committed(sys, op) ==> Committed(sys', op);
    assert SourceSound(sys', p, q') && RelaysSound(sys', q') && HopsSound(sys', q');
    assert HandlesSound(sys', p, q');
  }

  lemma HandOffKeepsInv(sys: System, p: PeerId)
    requires Inv(sys)
    ensures Inv(HandOffStep(sys, p))
  {
    if p in sys.peers && sys.peers[p].handoff != [] {
      var q := sys.peers[p];
      assert CachesSound(q) && AcceptedKnown(sys, q) by { assert PeerSound(sys, p, q); }
      HandedOff(sys, q, p);
      MoreAcceptedKeepsInv(sys, p, Deliver(q.(handoff := q.handoff[1..]), p, q.handoff[0]));
    }
  }

  lemma HandedOff(sys: System, q: Peer, p: PeerId)
    requires CachesSound(q) && AcceptedKnown(sys, q) && q.handoff != []
    ensures AcceptsMore(sys, q, Deliver(q.(handoff := q.handoff[1..]), p, q.handoff[0]))
  {
    var q1 := q.(handoff := q.handoff[1..]);
    var q2 := Deliver(q1, p, q.handoff[0]);
    AcceptEffect(q.session, q.handoff[0]);
    assert q.handoff == [q.handoff[0]] + q.handoff[1..];
    assert forall op :: Accepted(q, op) ==> Accepted(q1, op) || op == q.handoff[0];
    assert Accepted(q2, q.handoff[0]);
    assert forall op :: Accepted(q1, op) ==> Accepted(q2, op);
  }

  lemma RoutingLessens(q: Peer)
    ensures Lessens(q, Routing(q))
  {
  }

  lemma TakingAcceptsMore(sys: System, q: Peer, op: Operation, reach: Reach)
    requires CachesSound(q) && AcceptedKnown(sys, q) && Known(sys, op) && Accept(q.routed, DEDUP_WINDOW, op).0 == Ok(true)
    ensures var q' := Taking(q.(routed := Accept(q.routed, DEDUP_WINDOW, op).1), op, reach); AcceptsMore(sys, q, q') && Accepted(q', op)
  {
    var q' := Taking(q.(routed := Accept(q.routed, DEDUP_WINDOW, op).1), op, reach);
    AcceptEffect(q.routed, op);
    assert forall other :: Accepted(q', other) <==> Accepted(q, other) || other == op;
  }

  lemma ReceiveAsDestinationKeepsInv(sys: System, p: PeerId, m: Message, reach: Reach)
    requires Inv(sys) && p in sys.peers && m.Reliable? && MessageSound(sys, m)
    ensures Inv(ReceiveAsDestination(sys, p, m, reach))
  {
    var q := Routing(sys.peers[p]);
    RoutingLessens(sys.peers[p]);
    LesserKeepsInv(sys, p, q, {});
    WithTwice(sys, p, q, q);
    if FromCoordinatorFor(q, p, m) {
      assert MessageSound(With(sys, p, q, {}), m);
      RoutedKeepsInv(sys, p, q, m, reach);
    }
  }

  lemma RoutedKeepsInv(sys: System, p: PeerId, q: Peer, m: Message, reach: Reach)
    requires p in sys.peers && q == Routing(sys.peers[p]) && FromCoordinatorFor(q, p, m)
    requires Inv(With(sys, p, q, {})) && MessageSound(With(sys, p, q, {}), m)
    ensures Inv(ReceiveAsDestination(sys, p, m, reach))
  {
    var sys0 := With(sys, p, q, {});
    WithTwice(sys, p, q, q);
    assert PeerSound(sys0, p, sys0.peers[p]);
    AcceptEffect(q.routed, m.op);
    match Accept(q.routed, DEDUP_WINDOW, m.op)
    case (Err(_), _) =>
    case (Ok(false), _) =>
      assert Committed(sys0, m.op);
      AnswerKeepsInv(sys, sys0, p, q, m, reach);
    case (Ok(true), cache) =>
      TakenKeepsInv(sys, p, q, Taking(q.(routed := cache), m.op, reach), m, reach);
  }

  lemma TakenKeepsInv(sys: System, p: PeerId, q: Peer, q': Peer, m: Message, reach: Reach)
    requires p in sys.peers && m.Reliable? && m.op.destination == p && Accept(q.routed, DEDUP_WINDOW, m.op).0 == Ok(true)
    requires q' == Taking(q.(routed := Accept(q.routed, DEDUP_WINDOW, m.op).1), m.op, reach)
    requires Inv(With(sys, p, q, {})) && MessageSound(With(sys, p, q, {}), m)
    ensures Inv(With(sys, p, q', HopAnswers(p, m, reach)))
  {
    var sys0 := With(sys, p, q, {});
    WithTwice(sys, p, q, q');
    assert PeerSound(sys0, p, sys0.peers[p]);
    TakingAcceptsMore(sys0, q, m.op, reach);
    MoreAcceptedKeepsInv(sys0, p, q');
    AnswerKeepsInv(sys, With(sys, p, q', {}), p, q', m, reach);
  }

  // The generic ACK of a hop, which only an acked operation gets.
  function HopAnswers(p: PeerId, m: Message, reach: Reach): set<Message>
    requires m.Reliable?
  {
    if m.op.mode == ReliableAcked && reach != AckFails then {GenericAck(p, m.from, m.hop)} else {}
  }

  lemma AnswerKeepsInv(sys: System, sys1: System, p: PeerId, q': Peer, m: Message, reach: Reach)
    requires p in sys.peers && sys1 == With(sys, p, q', {}) && Inv(sys1) && m.Reliable? && MessageSound(sys1, m)
    requires Committed(sys1, m.op)
    ensures Inv(With(sys, p, q', HopAnswers(p, m, reach)))
  {
    AddMessages(sys1, p, HopAnswers(p, m, reach));
    assert With(sys, p, q', HopAnswers(p, m, reach)) == sys1.(net := sys1.net + HopAnswers(p, m, reach));
  }

  // ---------- the coordinator's actions ----------

  // Committed now, or by the delivery these actions contain.
  ghost predicate CommittedBy(sys: System, c: PeerId, a: Actions, op: Operation) {
    Committed(sys, op) || (a.deliver == Some(op) && op.destination == c)
  }

  ghost predicate ActionsSound(sys: System, c: PeerId, a: Actions, local: Option<GroupMessageId>)
    requires c in sys.peers
  {
    && (a.forward.Some? ==> a.forward.value in sys.peers[c].relays)
    && (a.deliver.Some? ==> Known(sys, a.deliver.value))
    && (a.localState == Some(RemoteAcknowledged) && local.Some? ==>
          || Over(sys.peers[c], local.value)
          || (MessageKey(c, local.value) in sys.issued && CommittedBy(sys, c, a, sys.issued[MessageKey(c, local.value)])))
    && (a.deliveryAck.Some? ==>
          && a.deliveryAck.value.key in sys.issued
          && (|| CommittedBy(sys, c, a, sys.issued[a.deliveryAck.value.key])
              || Unheard(sys, c, sys.issued[a.deliveryAck.value.key])))
    && (a.sourceHopAck.Some? ==>
          a.sourceHopAck.value in sys.bound &&
          (sys.bound[a.sourceHopAck.value].finalHop ==> CommittedBy(sys, c, a, sys.bound[a.sourceHopAck.value].op)))
  }

  lemma DeliveringKeepsInv(sys: System, c: PeerId, a: Actions)
    requires Inv(sys) && c in sys.peers && (a.deliver.Some? ==> Known(sys, a.deliver.value))
    ensures Inv(With(sys, c, Delivering(sys.peers[c], a), {}))
    ensures forall op :: CommittedBy(sys, c, a, op) ==> Committed(With(sys, c, Delivering(sys.peers[c], a), {}), op)
  {
    var q := sys.peers[c];
    assert CachesSound(q) && AcceptedKnown(sys, q) by { assert PeerSound(sys, c, q); }
    MoreAcceptedKeepsInv(sys, c, Delivering(q, a));
  }

  lemma CompletingKeepsInv(sys: System, c: PeerId, a: Actions, local: Option<GroupMessageId>)
    requires Inv(sys) && c in sys.peers
    requires a.localState == Some(RemoteAcknowledged) && local.Some? ==>
               || Over(sys.peers[c], local.value)
               || (MessageKey(c, local.value) in sys.issued && Committed(sys, sys.issued[MessageKey(c, local.value)]))
    ensures Inv(With(sys, c, Completing(sys.peers[c], a, local), {}))
  {
    if a.localState.Some? && local.Some? {
      if Over(sys.peers[c], local.value) {
        LesserKeepsInv(sys, c, sys.peers[c], {});
      } else if a.localState.value == RemoteAcknowledged {
        AcknowledgeKeepsInv(sys, c, local.value);
      } else {
        CompleteLessens(sys.peers[c], local.value, a.localState.value);
        LesserKeepsInv(sys, c, Completing(sys.peers[c], a, local), {});
      }
    } else {
      LesserKeepsInv(sys, c, sys.peers[c], {});
    }
  }

  lemma ForwardingIsSound(sys: System, c: PeerId, a: Actions)
    requires c in sys.peers && PeerSound(sys, c, sys.peers[c])
    requires a.forward.Some? ==> a.forward.value in sys.peers[c].relays
    ensures var q' := Forwarding(sys.peers[c], a);
            && PeerSound(With(sys, c, q', {}), c, q')
            && KeepsAccepted(sys.peers[c], q') && RetainsNothingOld(sys, sys.peers[c], q')
  {
    var q := sys.peers[c];
    var q' := Forwarding(q, a);
    var sys' := With(sys, c, q', {});
    assert forall op :: Accepted(q, op) <==> Accepted(q', op);
    assert SourceSound(sys', c, q') && RelaysSound(sys', q');
    assert HopsSound(sys', q');
    assert HandlesSound(sys', c, q');
  }

  lemma ForwardingKeepsInv(sys: System, c: PeerId, a: Actions)
    requires Inv(sys) && c in sys.peers && (a.forward.Some? ==> a.forward.value in sys.peers[c].relays)
    ensures Inv(With(sys, c, Forwarding(sys.peers[c], a), {}))
  {
    ForwardingIsSound(sys, c, a);
    var sys' := With(sys, c, Forwarding(sys.peers[c], a), {});
    assert GoodChange(sys, sys', c);
    GoodStepKeepsInv(sys, sys', c);
  }

  lemma PerformedKeepsInv(sys: System, c: PeerId, a: Actions, local: Option<GroupMessageId>)
    requires Inv(sys) && c in sys.peers && ActionsSound(sys, c, a, local)
    ensures Inv(With(sys, c, Performed(sys.peers[c], a, local), {}))
  {
    var q1 := Delivering(sys.peers[c], a);
    var q2 := Completing(q1, a, local);
    DeliveringKeepsInv(sys, c, a);
    WithTwice(sys, c, q1, q2);
    CompletingKeepsInv(With(sys, c, q1, {}), c, a, local);
    WithTwice(sys, c, q2, Forwarding(q2, a));
    DeliveringKeepsRelays(sys.peers[c], c, a, local);
    ForwardingKeepsInv(With(sys, c, q2, {}), c, a);
  }

  lemma DeliveringKeepsRelays(q: Peer, c: PeerId, a: Actions, local: Option<GroupMessageId>)
    ensures Completing(Delivering(q, a), a, local).relays == q.relays
  {
  }

  lemma PerformedCommits(sys: System, c: PeerId, a: Actions, local: Option<GroupMessageId>, op: Operation)
    requires c in sys.peers && CachesSound(sys.peers[c]) && CommittedBy(sys, c, a, op)
    ensures Committed(With(sys, c, Performed(sys.peers[c], a, local), {}), op)
  {
  }

  lemma PerformedKeepsSource(q: Peer, c: PeerId, a: Actions, local: Option<GroupMessageId>)
    ensures var q' := Performed(q, a, local); q'.sends == q.sends && q'.open == q.open && q'.coordinator == q.coordinator
  {
  }

  // What a coordinator may tell others, once its actions are performed.
  lemma EmittedSound(sys: System, sys': System, c: PeerId, from: PeerId, a: Actions, local: Option<GroupMessageId>)
    requires c in sys.peers && ActionsSound(sys, c, a, local) && RelaysSound(sys, sys.peers[c])
    requires sys'.bound == sys.bound && sys'.issued == sys.issued
    requires forall op :: CommittedBy(sys, c, a, op) ==> Committed(sys', op)
    requires forall op :: Unheard(sys, c, op) ==> Unheard(sys', c, op)
    requires forall r :: r in sys.peers[c].relays ==> r.op.destination != c
    ensures forall m :: m in Emitted(c, from, a) ==> MessageSound(sys', m)
  {
  }

  lemma CutSound(sys: System, c: PeerId, a: Actions, local: Option<GroupMessageId>, reach: Reach)
    requires c in sys.peers && ActionsSound(sys, c, a, local)
    ensures ActionsSound(sys, c, Cut(a, reach), local)
  {
  }

  lemma ApplyKeepsInv(sys: System, c: PeerId, from: PeerId, outcome: Outcome, local: Option<GroupMessageId>, reach: Reach)
    requires c in sys.peers
    requires Inv(With(sys, c, sys.peers[c].(relays := outcome.relays), {}))
    requires outcome.result.Ok? ==>
               ActionsSound(With(sys, c, sys.peers[c].(relays := outcome.relays), {}), c, outcome.result.value, local)
    ensures Inv(Apply(sys, c, from, outcome, local, reach))
  {
    var q := Releasing(sys.peers[c], outcome, reach);
    MarkingKeepsInv(sys, c, outcome, reach);
    if outcome.result.Ok? {
      var a := Cut(outcome.result.value, reach);
      MarkingKeepsActions(sys, c, outcome, local, reach);
      CutSound(With(sys, c, q, {}), c, outcome.result.value, local, reach);
      ActKeepsInv(With(sys, c, q, {}), c, from, a, local);
      WithTwice(sys, c, q, Performed(q, a, local));
    }
  }

  // Which forwards are going to fail is nothing that the invariant speaks of.
  lemma MarkingKeepsInv(sys: System, c: PeerId, outcome: Outcome, reach: Reach)
    requires c in sys.peers && Inv(With(sys, c, sys.peers[c].(relays := outcome.relays), {}))
    ensures Inv(With(sys, c, Releasing(sys.peers[c], outcome, reach), {}))
  {
    var released := With(sys, c, sys.peers[c].(relays := outcome.relays), {});
    LesserKeepsInv(released, c, Releasing(sys.peers[c], outcome, reach), {});
    WithTwice(sys, c, sys.peers[c].(relays := outcome.relays), Releasing(sys.peers[c], outcome, reach));
    assert released.net == sys.net && With(sys, c, Releasing(sys.peers[c], outcome, reach), {}).net == sys.net;
  }

  lemma MarkingKeepsActions(sys: System, c: PeerId, outcome: Outcome, local: Option<GroupMessageId>, reach: Reach)
    requires c in sys.peers && outcome.result.Ok?
    requires ActionsSound(With(sys, c, sys.peers[c].(relays := outcome.relays), {}), c, outcome.result.value, local)
    ensures ActionsSound(With(sys, c, Releasing(sys.peers[c], outcome, reach), {}), c, outcome.result.value, local)
  {
    var a := outcome.result.value;
    var released, marked := With(sys, c, sys.peers[c].(relays := outcome.relays), {}), With(sys, c, Releasing(sys.peers[c], outcome, reach), {});
    assert forall op :: Committed(released, op) <==> Committed(marked, op);
    assert forall op :: Unheard(released, c, op) <==> Unheard(marked, c, op);
  }

  lemma EmittedSoundAfter(sys: System, c: PeerId, from: PeerId, a: Actions, local: Option<GroupMessageId>)
    requires c in sys.peers && PeerSound(sys, c, sys.peers[c]) && ActionsSound(sys, c, a, local)
    ensures var sys' := With(sys, c, Performed(sys.peers[c], a, local), {});
            forall m :: m in Emitted(c, from, a) ==> MessageSound(sys', m)
  {
    var sys' := With(sys, c, Performed(sys.peers[c], a, local), {});
    forall op | CommittedBy(sys, c, a, op) ensures Committed(sys', op) { PerformedCommits(sys, c, a, local, op); }
    PerformedKeepsSource(sys.peers[c], c, a, local);
    EmittedSound(sys, sys', c, from, a, local);
  }

  lemma ActKeepsInv(sys: System, c: PeerId, from: PeerId, a: Actions, local: Option<GroupMessageId>)
    requires Inv(sys) && c in sys.peers && ActionsSound(sys, c, a, local)
    ensures Inv(With(sys, c, Performed(sys.peers[c], a, local), Emitted(c, from, a)))
  {
    PerformedKeepsInv(sys, c, a, local);
    assert PeerSound(sys, c, sys.peers[c]);
    EmittedSoundAfter(sys, c, from, a, local);
    MoreMessages(sys, c, Performed(sys.peers[c], a, local), Emitted(c, from, a));
  }

  lemma MoreMessages(sys: System, p: PeerId, q': Peer, messages: set<Message>)
    requires p in sys.peers && Inv(With(sys, p, q', {}))
    requires forall m :: m in messages ==> MessageSound(With(sys, p, q', {}), m)
    ensures Inv(With(sys, p, q', messages))
  {
    AddMessages(With(sys, p, q', {}), p, messages);
    assert With(sys, p, q', messages) == With(sys, p, q', {}).(net := With(sys, p, q', {}).net + messages);
  }

  // ---------- final-hop results at the coordinator ----------

  lemma HeadIsKept(relays: seq<Relay>, key: MessageKey, s: PeerId, d: PeerId)
    ensures var next := Head(Without(relays, key), s, d); next.Some? ==> next.value in Without(relays, key)
    ensures forall r :: r in Without(relays, key) ==> r in relays
  {
    OfPairMembers(Without(relays, key), s, d);
    WithoutMembers(relays, key);
  }

  lemma ReleasedKeepsInv(sys: System, c: PeerId, key: MessageKey)
    requires Inv(sys) && c in sys.peers
    ensures Inv(With(sys, c, sys.peers[c].(relays := Without(sys.peers[c].relays, key)), {}))
    ensures Inv(With(sys, c, sys.peers[c].(relays := sys.peers[c].relays), {}))
  {
    WithoutMembers(sys.peers[c].relays, key);
    LesserKeepsInv(sys, c, sys.peers[c].(relays := Without(sys.peers[c].relays, key)), {});
    LesserKeepsInv(sys, c, sys.peers[c].(relays := sys.peers[c].relays), {});
  }

  // An acknowledged final hop of the operation completes no handle at this coordinator.
  ghost predicate Idle(sys: System, c: PeerId, op: Operation)
    requires c in sys.peers
  {
    var q := sys.peers[c];
    !HasRelay(q, op.Key()) || (if op.source == c then Over(q, op.id) else Unheard(sys, c, op))
  }

  // The final hop of an operation that is committed, or idle here, is acknowledged.
  lemma AcknowledgedKeepsInv(cfg: Config, sys: System, c: PeerId, key: MessageKey, reach: Reach)
    requires Inv(sys) && c in sys.peers && key in sys.issued
    requires Committed(sys, sys.issued[key]) || Idle(sys, c, sys.issued[key])
    ensures Inv(Apply(sys, c, c, Acknowledged(LimitsOf(cfg, c), sys.peers[c].relays, key), Some(key.id), reach))
  {
    var relays := sys.peers[c].relays;
    var outcome := Acknowledged(LimitsOf(cfg, c), relays, key);
    ReleasedKeepsInv(sys, c, key);
    var q1 := sys.peers[c].(relays := outcome.relays);
    var sys1 := With(sys, c, q1, {});
    assert PeerSound(sys, c, sys.peers[c]);
    if outcome.result.Ok? { AcknowledgedActionsSound(cfg, sys, c, key, sys1); }
    ApplyKeepsInv(sys, c, c, outcome, Some(key.id), reach);
  }

  lemma AcknowledgedActionsSound(cfg: Config, sys: System, c: PeerId, key: MessageKey, sys1: System)
    requires c in sys.peers && key in sys.issued && sys.issued[key].Key() == key
    requires forall r :: r in sys.peers[c].relays ==> Known(sys, r.op)
    requires Committed(sys, sys.issued[key]) || Idle(sys, c, sys.issued[key])
    requires var outcome := Acknowledged(LimitsOf(cfg, c), sys.peers[c].relays, key);
             outcome.result.Ok? && sys1 == With(sys, c, sys.peers[c].(relays := outcome.relays), {})
    ensures ActionsSound(sys1, c, Acknowledged(LimitsOf(cfg, c), sys.peers[c].relays, key).result.value, Some(key.id))
  {
    var relays := sys.peers[c].relays;
    if Find(relays, key).Some? {
      var op := Find(relays, key).value.op;
      HeadIsKept(relays, key, key.source, op.destination);
      assert Known(sys, op);
      assert forall other :: Committed(sys, other) ==> Committed(sys1, other);
    }
  }

  lemma SubmittedKeepsInv(cfg: Config, sys: System, c: PeerId, key: MessageKey, reach: Reach)
    requires Inv(sys) && c in sys.peers
    ensures Inv(Apply(sys, c, c, Submitted(LimitsOf(cfg, c), sys.peers[c].relays, key), None, reach))
  {
    var relays := sys.peers[c].relays;
    ReleasedKeepsInv(sys, c, key);
    if Find(relays, key).Some? { HeadIsKept(relays, key, key.source, Find(relays, key).value.op.destination); }
    ApplyKeepsInv(sys, c, c, Submitted(LimitsOf(cfg, c), relays, key), None, reach);
  }

  lemma FailureKeepsInv(cfg: Config, sys: System, c: PeerId, key: MessageKey, status: RelayStatus, reach: Reach)
    requires Inv(sys) && c in sys.peers
    ensures Inv(Apply(sys, c, c, FinalHopFailure(LimitsOf(cfg, c), sys.peers[c].relays, key, status), Some(key.id), reach))
  {
    var relays := sys.peers[c].relays;
    ReleasedKeepsInv(sys, c, key);
    if Find(relays, key).Some? { HeadIsKept(relays, key, key.source, Find(relays, key).value.op.destination); }
    ApplyKeepsInv(sys, c, c, FinalHopFailure(LimitsOf(cfg, c), relays, key, status), Some(key.id), reach);
  }

  lemma AckArrivesKeepsInv(cfg: Config, sys: System, p: PeerId, m: Message, reach: Reach)
    requires Inv(sys)
    ensures Inv(AckArrivesStep(cfg, sys, p, m, reach))
  {
    if AckArrivesStep(cfg, sys, p, m, reach) != sys {
      var q := sys.peers[p];
      var hop := q.hops[m.hop];
      var q1 := q.(hops := WithoutHop(q.hops, m.hop));
      var rest := With(sys, p, q1, {});
      WithoutHopKeepsInv(sys, p, m.hop);
      if hop.finalHop && q.coordinator == p {
        AckedHopSound(sys, p, m);
        var op := sys.issued[hop.key];
        if Committed(sys, op) { LessKeepsCommitted(sys, p, q1, op); } else { IdleWithoutHop(sys, p, m.hop, op); }
        AcknowledgedKeepsInv(cfg, rest, p, hop.key, reach);
      }
    }
  }

  lemma IdleWithoutHop(sys: System, p: PeerId, hop: nat, op: Operation)
    requires p in sys.peers && Idle(sys, p, op)
    ensures Idle(With(sys, p, sys.peers[p].(hops := WithoutHop(sys.peers[p].hops, hop)), {}), p, op)
  {
  }

  // A generic ACK that a peer still waits for, on a final hop, was sent by a destination
  // that had committed the operation, or it cannot complete a handle.
  lemma AckedHopSound(sys: System, p: PeerId, m: Message)
    requires Inv(sys) && p in sys.peers && m in sys.net && m.GenericAck? && m.to == p
    requires m.hop in sys.peers[p].hops && sys.peers[p].hops[m.hop].finalHop && sys.peers[p].coordinator == p
    ensures var key := sys.peers[p].hops[m.hop].key;
            key in sys.issued && (Committed(sys, sys.issued[key]) || Idle(sys, p, sys.issued[key]))
  {
    assert MessageSound(sys, m);
    assert PeerSound(sys, p, sys.peers[p]);
    assert Retains(sys.peers[p], m.hop);
  }

  lemma HopTimesOutKeepsInv(cfg: Config, sys: System, p: PeerId, hop: nat, reach: Reach)
    requires Inv(sys)
    ensures Inv(HopTimesOutStep(cfg, sys, p, hop, reach))
  {
    if p in sys.peers && hop in sys.peers[p].hops {
      var q := sys.peers[p];
      if q.hops[hop].finalHop {
        var q1 := q.(hops := WithoutHop(q.hops, hop));
        LesserKeepsInv(sys, p, q1, {});
        if q.coordinator == p { FailureKeepsInv(cfg, With(sys, p, q1, {}), p, q.hops[hop].key, DestinationAckTimeout, reach); }
      } else {
        SourceHopTimeoutKeepsInv(cfg, sys, p, hop, reach);
      }
    }
  }

  // ---------- admission at the coordinator ----------

  // A new relay waits on a MessageId nobody has seen before.
  lemma NewRelayIsSound(sys: System, c: PeerId, op: Operation)
    requires NamesSound(sys) && c in sys.peers && PeerSound(sys, c, sys.peers[c]) && Known(sys, op) && op.destination != c
    ensures var q' := sys.peers[c].(relays := sys.peers[c].relays + [Relay(op, sys.nextHop, |op.bytes|)]);
            var sys' := With(Bind(sys, op, true), c, q', {});
            && PeerSound(sys', c, q') && NamesSound(sys')
            && KeepsAccepted(sys.peers[c], q') && RetainsNothingOld(sys, sys.peers[c], q')
  {
    var q := sys.peers[c];
    var q' := q.(relays := q.relays + [Relay(op, sys.nextHop, |op.bytes|)]);
    var sys' := With(Bind(sys, op, true), c, q', {});
    assert forall other :: Accepted(q, other) <==> Accepted(q', other);
    assert SourceSound(sys', c, q');
    assert RelaysSound(sys', q');
    assert HopsSound(sys', q');
    assert HandlesSound(sys', c, q');
  }

  // The coordinator relays for others only while its session is open, and an operation of
  // its own only when it originates it.
  ghost predicate MayRelay(sys: System, c: PeerId, op: Operation)
    requires c in sys.peers
  {
    (op.source != c && sys.peers[c].open) || !Used(sys, op.Key())
  }

  lemma NewRelayTames(sys: System, c: PeerId, op: Operation, hop: nat)
    requires c in sys.peers && MayRelay(sys, c, op)
    ensures Tames(sys, c, sys.peers[c], sys.peers[c].(relays := sys.peers[c].relays + [Relay(op, hop, |op.bytes|)]))
  {
    var q := sys.peers[c];
    var q' := q.(relays := q.relays + [Relay(op, hop, |op.bytes|)]);
    forall key | HasRelay(q', key) && key != op.Key() ensures HasRelay(q, key) {
      assert Find(q'.relays, key).value in q.relays;
    }
  }

  lemma NewRelayKeepsInv(sys: System, c: PeerId, op: Operation)
    requires Inv(sys) && c in sys.peers && Known(sys, op) && op.destination != c && MayRelay(sys, c, op)
    ensures Inv(With(Bind(sys, op, true), c,
                     sys.peers[c].(relays := sys.peers[c].relays + [Relay(op, sys.nextHop, |op.bytes|)]), {}))
  {
    NewRelayIsSound(sys, c, op);
    NewRelayTames(sys, c, op, sys.nextHop);
    var q' := sys.peers[c].(relays := sys.peers[c].relays + [Relay(op, sys.nextHop, |op.bytes|)]);
    var sys' := With(Bind(sys, op, true), c, q', {});
    assert GoodChange(sys, sys', c);
    GoodStepKeepsInv(sys, sys', c);
  }

  // The source hop of an operation that is not the coordinator's own: if it was a final
  // hop of some other peer's, then it was addressed to this coordinator.
  ghost predicate SourceHopSound(sys: System, c: PeerId, op: Operation, sourceHop: nat)
    requires c in sys.peers
  {
    op.source != c ==>
      sourceHop in sys.bound &&
      (sys.bound[sourceHop].finalHop ==>
         sys.bound[sourceHop].op == op && op.destination == c && c in sys.peers[c].members)
  }

  function AdmittedOutcome(cfg: Config, sys: System, c: PeerId, op: Operation, sourceHop: nat, ready: bool): Outcome
    requires c in sys.peers
  {
    Admitted(LimitsOf(cfg, c), sys.peers[c].relays, Relay(op, sys.nextHop, |op.bytes|), sourceHop, sys.peers[c].members, ready)
  }

  lemma AdmissionActionsSound(cfg: Config, sys: System, c: PeerId, op: Operation, sourceHop: nat, ready: bool,
                              local: Option<GroupMessageId>, sys1: System)
    requires c in sys.peers && Known(sys, op) && SourceHopSound(sys, c, op, sourceHop)
    requires var outcome := AdmittedOutcome(cfg, sys, c, op, sourceHop, ready);
             outcome.result.Ok? && sys1 == With(Bind(sys, op, true), c, sys.peers[c].(relays := outcome.relays), {})
    requires local.Some? ==> op.source == c
    requires NamesSound(sys)
    ensures ActionsSound(sys1, c, AdmittedOutcome(cfg, sys, c, op, sourceHop, ready).result.value, local)
  {
  }

  lemma AdmitStepKeepsInv(cfg: Config, sys: System, c: PeerId, from: PeerId, op: Operation, sourceHop: nat, ready: bool,
                          local: Option<GroupMessageId>, reach: Reach)
    requires Inv(sys) && c in sys.peers && Known(sys, op) && SourceHopSound(sys, c, op, sourceHop)
    requires MayRelay(sys, c, op) && (local.Some? ==> op.source == c)
    ensures Inv(Apply(Bind(sys, op, true), c, from, AdmittedOutcome(cfg, sys, c, op, sourceHop, ready), local, reach))
  {
    var outcome := AdmittedOutcome(cfg, sys, c, op, sourceHop, ready);
    var relays := sys.peers[c].relays;
    var bound := Bind(sys, op, true);
    if outcome.relays == relays {
      BindKeepsInv(sys, c, op, true);
      LesserKeepsInv(bound, c, sys.peers[c].(relays := relays), {});
    } else {
      assert outcome.relays == relays + [Relay(op, sys.nextHop, |op.bytes|)];
      NewRelayKeepsInv(sys, c, op);
    }
    if outcome.result.Ok? {
      AdmissionActionsSound(cfg, sys, c, op, sourceHop, ready, local,
                            With(bound, c, sys.peers[c].(relays := outcome.relays), {}));
    }
    ApplyKeepsInv(bound, c, from, outcome, local, reach);
  }

  lemma ReceiveKeepsInv(cfg: Config, sys: System, p: PeerId, m: Message, ready: bool, reach: Reach)
    requires Inv(sys)
    ensures Inv(ReceiveStep(cfg, sys, p, m, ready, reach))
  {
    if ReceiveStep(cfg, sys, p, m, ready, reach) != sys {
      assert MessageSound(sys, m);
      if sys.peers[p].coordinator == p {
        AdmitStepKeepsInv(cfg, sys, p, m.from, m.op, m.hop, ready, None, reach);
      } else {
        ReceiveAsDestinationKeepsInv(sys, p, m, reach);
      }
    }
  }

  // ---------- the source's own sends ----------

  lemma RerouteBeginsKeepsInv(sys: System, p: PeerId, order: seq<GroupMessageId>, onlyOrdered: bool)
    requires Inv(sys)
    ensures Inv(RerouteBeginsStep(sys, p, order, onlyOrdered))
  {
    if RerouteBeginsStep(sys, p, order, onlyOrdered) != sys {
      RerouteTakes(sys, p, order, onlyOrdered);
      KeptHopsKeepInv(sys, p, onlyOrdered);
      SnapshotKeepsInv(sys, p, order, KeptHops(sys.peers[p].hops, onlyOrdered));
    }
  }

  lemma KeptHopsKeepInv(sys: System, p: PeerId, onlyOrdered: bool)
    requires Inv(sys) && p in sys.peers
    ensures Inv(With(sys, p, sys.peers[p].(hops := KeptHops(sys.peers[p].hops, onlyOrdered)), {}))
  {
    LesserKeepsInv(sys, p, sys.peers[p].(hops := KeptHops(sys.peers[p].hops, onlyOrdered)), {});
  }

  lemma RerouteTakes(sys: System, p: PeerId, order: seq<GroupMessageId>, onlyOrdered: bool)
    requires RerouteBeginsStep(sys, p, order, onlyOrdered) != sys
    ensures p in sys.peers && sys.peers[p].coordinator != p
    ensures forall i :: 0 <= i < |order| ==> order[i] in sys.peers[p].sends.live
    ensures var q := sys.peers[p];
            RerouteBeginsStep(sys, p, order, onlyOrdered)
            == With(sys, p, q.(passes := q.passes + [Pass(q.coordinator, Snapshot(q.sends.live, order), false)],
                               hops := KeptHops(q.hops, onlyOrdered)), {})
  {
  }

  lemma SnapshotKeepsInv(sys: System, p: PeerId, order: seq<GroupMessageId>, hops: map<nat, Hop>)
    requires p in sys.peers && PeerSound(sys, p, sys.peers[p]) && sys.peers[p].coordinator != p
    requires Inv(With(sys, p, sys.peers[p].(hops := hops), {}))
    requires forall i :: 0 <= i < |order| ==> order[i] in sys.peers[p].sends.live
    ensures var q := sys.peers[p];
            var passes := q.passes + [Pass(q.coordinator, Snapshot(q.sends.live, order), false)];
            Inv(With(sys, p, q.(passes := passes, hops := hops), {}))
  {
    var q := sys.peers[p];
    var passes := q.passes + [Pass(q.coordinator, Snapshot(q.sends.live, order), false)];
    SnapshotSound(sys, p, order, passes);
    WithTwice(sys, p, q.(hops := hops), q.(passes := passes, hops := hops));
    PassesKeepInv(With(sys, p, q.(hops := hops), {}), p, passes);
  }

  lemma SnapshotSound(sys: System, p: PeerId, order: seq<GroupMessageId>, passes: seq<Pass>)
    requires p in sys.peers && SourceSound(sys, p, sys.peers[p]) && sys.peers[p].coordinator != p
    requires forall i :: 0 <= i < |order| ==> order[i] in sys.peers[p].sends.live
    requires passes == sys.peers[p].passes + [Pass(sys.peers[p].coordinator, Snapshot(sys.peers[p].sends.live, order), false)]
    ensures PassesSound(sys, p, passes)
  {
    var ops := Snapshot(sys.peers[p].sends.live, order);
    forall op | op in ops ensures op.source == p && Known(sys, op) {
      var i :| 0 <= i < |ops| && ops[i] == op;
      assert order[i] in sys.peers[p].sends.live;
    }
  }

  lemma SubmitsKeepsInv(sys: System, p: PeerId, k: nat, submitted: bool)
    requires Inv(sys)
    ensures Inv(SubmitsStep(sys, p, k, submitted))
  {
    if p in sys.peers && k < |sys.peers[p].passes| && sys.peers[p].passes[k].rest != [] {
      var q := sys.peers[p];
      var pass := q.passes[k];
      assert SourceSound(sys, p, q) by { assert PeerSound(sys, p, q); }
      assert PassSound(sys, p, pass) && pass.rest[0] in pass.rest;
      if submitted {
        var passes := q.passes[k := pass.(rest := pass.rest[1..])];
        PassesKeepInv(sys, p, passes);
        SubmitSourceHopKeepsInv(With(sys, p, q.(passes := passes), {}), p, pass.to, pass.rest[0]);
      } else {
        var passes := q.passes[k := pass.(rest := [])];
        PassesKeepInv(sys, p, passes);
        AbandonedKeepsInv(sys, p, k, passes);
      }
    }
  }

  lemma AbandonedKeepsInv(sys: System, p: PeerId, k: nat, passes: seq<Pass>)
    requires p in sys.peers && k < |sys.peers[p].passes| && sys.peers[p].passes[k].rest != []
    requires passes == sys.peers[p].passes[k := sys.peers[p].passes[k].(rest := [])]
    requires Inv(With(sys, p, sys.peers[p].(passes := passes), {}))
    ensures Inv(With(sys, p, Abandoned(sys.peers[p], k), {}))
  {
    var q := sys.peers[p].(passes := passes);
    var id := sys.peers[p].passes[k].rest[0].id;
    CompleteLessens(q, id, Failed);
    LesserKeepsInv(With(sys, p, q, {}), p, Complete(q, id, Failed), {});
    WithTwice(sys, p, q, Complete(q, id, Failed));
  }

  lemma BeginKeepsInv(sys: System, p: PeerId, op: Operation)
    requires Inv(sys) && p in sys.peers && Known(sys, op) && op.source == p && !Used(sys, op.Key())
    ensures var q := sys.peers[p];
            Inv(With(sys, p, q.(sends := q.sends.(live := q.sends.live[op.id := op])), {}))
  {
    var q := sys.peers[p];
    var q' := q.(sends := q.sends.(live := q.sends.live[op.id := op]));
    assert PeerSound(sys, p, q);
    BegunIsSound(sys, p, q', op);
    assert GoodChange(sys, With(sys, p, q', {}), p);
    GoodStepKeepsInv(sys, With(sys, p, q', {}), p);
  }

  lemma BegunIsSound(sys: System, p: PeerId, q': Peer, op: Operation)
    requires p in sys.peers && PeerSound(sys, p, sys.peers[p]) && Known(sys, op) && op.source == p
    requires var q := sys.peers[p]; q' == q.(sends := q.sends.(live := q.sends.live[op.id := op]))
    ensures PeerSound(With(sys, p, q', {}), p, q')
    ensures KeepsAccepted(sys.peers[p], q') && RetainsNothingOld(sys, sys.peers[p], q')
  {
    var q, sys' := sys.peers[p], With(sys, p, q', {});
    assert forall other :: Accepted(q, other) <==> Accepted(q', other);
    assert SourceSound(sys', p, q');
    assert RelaysSound(sys', q') && HopsSound(sys', q');
    assert HandlesSound(sys', p, q');
  }

  // What a registered send adds to its source.
  function Begun(q: Peer, op: Operation): Peer {
    q.(sends := q.sends.(live := q.sends.live[op.id := op]), passes := q.passes + [Pass(q.coordinator, [op], true)])
  }

  lemma MemberOrigin(cfg: Config, sys: System, p: PeerId, op: Operation, ready: bool)
    requires p in sys.peers
    ensures var q := sys.peers[p];
            || OriginateAsMember(cfg, sys, p, op, ready) == With(sys, p, Complete(q, op.id, Failed), {})
            || OriginateAsMember(cfg, sys, p, op, ready) == With(sys, p, Begun(q, op), {})
  {
  }

  lemma MemberOriginKeepsInv(cfg: Config, sys: System, p: PeerId, op: Operation, ready: bool)
    requires Inv(sys) && p in sys.peers && Known(sys, op) && op.source == p
    requires sys.peers[p].coordinator != p && !Used(sys, op.Key())
    ensures Inv(OriginateAsMember(cfg, sys, p, op, ready))
  {
    MemberOrigin(cfg, sys, p, op, ready);
    BegunKeepsInv(sys, p, op);
    CompleteLessens(sys.peers[p], op.id, Failed);
    LesserKeepsInv(sys, p, Complete(sys.peers[p], op.id, Failed), {});
  }

  lemma BegunKeepsInv(sys: System, p: PeerId, op: Operation)
    requires Inv(sys) && p in sys.peers && Known(sys, op) && op.source == p
    requires sys.peers[p].coordinator != p && !Used(sys, op.Key())
    ensures Inv(With(sys, p, Begun(sys.peers[p], op), {}))
  {
    var q := sys.peers[p];
    var q1 := q.(sends := q.sends.(live := q.sends.live[op.id := op]));
    BeginKeepsInv(sys, p, op);
    WithTwice(sys, p, q1, Begun(q, op));
    FirstPassSound(sys, p, op);
    PassesKeepInv(With(sys, p, q1, {}), p, q.passes + [Pass(q.coordinator, [op], true)]);
  }

  lemma FirstPassSound(sys: System, p: PeerId, op: Operation)
    requires p in sys.peers && Inv(sys) && Known(sys, op) && op.source == p && sys.peers[p].coordinator != p
    ensures PassesSound(sys, p, sys.peers[p].passes + [Pass(sys.peers[p].coordinator, [op], true)])
  {
    assert SourceSound(sys, p, sys.peers[p]) by { assert PeerSound(sys, p, sys.peers[p]); }
    assert PassSound(sys, p, Pass(sys.peers[p].coordinator, [op], true));
  }

  lemma OwnOriginKeepsInv(cfg: Config, sys: System, p: PeerId, op: Operation, ready: bool, reach: Reach)
    requires Inv(sys) && p in sys.peers && Known(sys, op) && op.source == p && !Used(sys, op.Key())
    ensures Inv(OriginateAsCoordinator(cfg, sys, p, op, ready, reach))
  {
    var outcome := OwnOutcome(cfg, sys, p, op, ready);
    var applied := Apply(Bind(sys, op, true), p, p, outcome, Some(op.id), reach);
    AdmitStepKeepsInv(cfg, sys, p, p, op, 0, ready, Some(op.id), reach);
    if OriginFails(outcome, reach) {
      CompleteLessens(applied.peers[p], op.id, Failed);
      LesserKeepsInv(applied, p, Complete(applied.peers[p], op.id, Failed), {});
    }
  }

  lemma OriginateKeepsInv(cfg: Config, sys: System, e: Event)
    requires Inv(sys) && e.Originate?
    ensures Inv(Step(cfg, sys, e))
  {
    var p := e.source;
    if Step(cfg, sys, e) != sys {
      var op := Operation(p, e.destination, sys.peers[p].nextId, e.mode, e.priority, e.bytes);
      NamedKeepsInv(sys, p, op);
      if sys.peers[p].coordinator == p {
        OwnOriginKeepsInv(cfg, Named(sys, p, op), p, op, e.ready, e.reach);
      } else {
        MemberOriginKeepsInv(cfg, Named(sys, p, op), p, op, e.ready);
      }
    }
  }
}
