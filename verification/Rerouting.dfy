/**
 A live send can always be carried again: any open peer can commit itself as coordinator
 with an empty relay table, the source can commit it too, and the rerouted operation is
 admitted there. These are the continuations that the exact conditions speak of.
 */
module Rerouting {
  import opened Types
  import opened RelayTable
  import opened RelayController
  import opened RoutedDelivery
  import opened AckSoundness
  import opened RelayShape

  // The operation is live at its source, the source can hear `c`, and `c` can coordinate
  // with an empty table.
  ghost predicate Carriable(sys: System, c: PeerId, op: Operation) {
    var s := op.source;
    && s in sys.peers && c in sys.peers && s != c && op.destination != s
    && op.id in sys.peers[s].sends.live && sys.peers[s].sends.live[op.id] == op
    && sys.peers[c].open && (sys.peers[s].open || sys.peers[s].coordinator == c)
    && (sys.peers[c].relays != [] ==> sys.peers[c].coordinator == c)
  }

  function Group(c: PeerId, op: Operation): set<PeerId> { {op.source, op.destination, c} }

  // What two states share that differ only in committed views and relay tables.
  ghost predicate SameButViews(sys: System, sys': System) {
    && sys'.net == sys.net && sys'.bound == sys.bound && sys'.nextHop == sys.nextHop && sys'.issued == sys.issued
    && sys'.peers.Keys == sys.peers.Keys
    && (forall p :: p in sys.peers ==>
          var (q, q') := (sys.peers[p], sys'.peers[p]);
          && q'.sends == q.sends && q'.handles == q.handles && q'.hops == q.hops && q'.open == q.open
          && q'.passes == q.passes && q'.swallowed == q.swallowed && q'.delivered == q.delivered && q'.handoff == q.handoff && q'.dropped == q.dropped)
  }

  lemma CommitChangesViews(sys: System, p: PeerId, c: PeerId, members: set<PeerId>)
    ensures SameButViews(sys, CommitStep(sys, p, c, members))
    ensures forall other :: other in sys.peers && other != p ==> CommitStep(sys, p, c, members).peers[other] == sys.peers[other]
  {
  }

  lemma SameButViewsTwice(sys1: System, sys2: System, sys3: System)
    requires SameButViews(sys1, sys2) && SameButViews(sys2, sys3)
    ensures SameButViews(sys1, sys3)
  {
  }

  // `c` leaves its own authority and takes it again, which empties its table.
  function Taken(sys: System, c: PeerId, op: Operation): System {
    CommitStep(CommitStep(sys, c, op.source, Group(c, op)), c, c, Group(c, op))
  }

  function Adopted(sys: System, c: PeerId, op: Operation): System {
    CommitStep(Taken(sys, c, op), op.source, c, Group(c, op))
  }

  lemma TakenEmpty(sys: System, c: PeerId, op: Operation)
    requires Carriable(sys, c, op)
    ensures SameButViews(sys, Taken(sys, c, op)) && Taken(sys, c, op).peers[op.source] == sys.peers[op.source]
    ensures var q := Taken(sys, c, op).peers[c]; q.coordinator == c && q.members == Group(c, op) && q.relays == []
  {
    var sys1 := CommitStep(sys, c, op.source, Group(c, op));
    CommitChangesViews(sys, c, op.source, Group(c, op));
    CommitChangesViews(sys1, c, c, Group(c, op));
    SameButViewsTwice(sys, sys1, Taken(sys, c, op));
  }

  lemma AdoptedBoth(sys: System, c: PeerId, op: Operation)
    requires Carriable(sys, c, op)
    ensures SameButViews(sys, Adopted(sys, c, op))
    ensures var q := Adopted(sys, c, op).peers[c]; q.coordinator == c && q.members == Group(c, op) && q.relays == []
    ensures Adopted(sys, c, op).peers[op.source].coordinator == c
  {
    TakenEmpty(sys, c, op);
    CommitChangesViews(Taken(sys, c, op), op.source, c, Group(c, op));
    SameButViewsTwice(sys, Taken(sys, c, op), Adopted(sys, c, op));
  }

  function Attempt(sys: System, c: PeerId, op: Operation): Message { Reliable(op.source, c, sys.nextHop, op) }

  // Some order of a set of identifiers.
  ghost function InSomeOrder(ids: set<GroupMessageId>): seq<GroupMessageId> {
    if ids == {} then []
    else
      var id :| id in ids;
      [id] + InSomeOrder(ids - {id})
  }

  lemma {:induction false} SomeOrderLists(ids: set<GroupMessageId>)
    ensures Lists(InSomeOrder(ids), ids)
  {
    if ids != {} {
      var id :| id in ids && InSomeOrder(ids) == [id] + InSomeOrder(ids - {id});
      SomeOrderLists(ids - {id});
    }
  }

  // The live sends, this one first.
  ghost function OrderFrom(sys: System, s: PeerId, id: GroupMessageId): seq<GroupMessageId>
    requires s in sys.peers
  {
    [id] + InSomeOrder(Rerouted(sys.peers[s].sends, false) - {id})
  }

  lemma OrderFromLists(sys: System, s: PeerId, id: GroupMessageId)
    requires s in sys.peers && id in sys.peers[s].sends.live
    ensures Lists(OrderFrom(sys, s, id), Rerouted(sys.peers[s].sends, false))
  {
    SomeOrderLists(Rerouted(sys.peers[s].sends, false) - {id});
  }

  ghost function Begun(sys: System, c: PeerId, op: Operation): System
    requires op.source in sys.peers
  {
    RerouteBeginsStep(Adopted(sys, c, op), op.source, OrderFrom(sys, op.source, op.id), false)
  }

  ghost function Sent(sys: System, c: PeerId, op: Operation): System
    requires op.source in sys.peers
  {
    SubmitsStep(Begun(sys, c, op), op.source, |sys.peers[op.source].passes|, true)
  }

  // The reroute is in progress, and the operation is next.
  lemma RerouteBegun(sys: System, c: PeerId, op: Operation)
    requires Carriable(sys, c, op)
    ensures var begun := Begun(sys, c, op);
            var adopted := Adopted(sys, c, op);
            && op.source in begun.peers && op.source in adopted.peers
            && begun == With(adopted, op.source, begun.peers[op.source], {})
            && (var (q, q') := (adopted.peers[op.source], begun.peers[op.source]);
                && |q'.passes| == |sys.peers[op.source].passes| + 1
                && q'.passes[|q'.passes| - 1].to == c && q'.passes[|q'.passes| - 1].rest != []
                && q'.passes[|q'.passes| - 1].rest[0] == op
                && q' == q.(passes := q'.passes, hops := q'.hops))
  {
    AdoptedBoth(sys, c, op);
    OrderFromLists(sys, op.source, op.id);
  }

  // The new attempt is on its way; nothing but the source's hops has changed.
  lemma SentAgain(sys: System, c: PeerId, op: Operation)
    requires Carriable(sys, c, op)
    ensures op.source in Sent(sys, c, op).peers && c in Sent(sys, c, op).peers
    ensures var sent := Sent(sys, c, op);
            && sent.peers.Keys == sys.peers.Keys && Attempt(sys, c, op) in sent.net && sys.net <= sent.net
            && sent.nextHop == sys.nextHop + 1
            && sent.peers[c] == Adopted(sys, c, op).peers[c]
            && sent.peers[op.source].sends == sys.peers[op.source].sends
            && sent.peers[op.source].handles == sys.peers[op.source].handles
            && sent.peers[op.source].coordinator == c
            && (Committed(sent, op) <==> Committed(sys, op))
  {
    AdoptedBoth(sys, c, op);
    RerouteBegun(sys, c, op);
    SubmittedNext(Begun(sys, c, op), op, |sys.peers[op.source].passes|);
  }

  lemma SubmittedNext(sys: System, op: Operation, k: nat)
    requires op.source in sys.peers && k < |sys.peers[op.source].passes|
    requires sys.peers[op.source].passes[k].rest != [] && sys.peers[op.source].passes[k].rest[0] == op
    ensures var sys' := SubmitsStep(sys, op.source, k, true);
            && op.source in sys'.peers && sys'.peers == sys.peers[op.source := sys'.peers[op.source]]
            && sys'.net == sys.net + {Reliable(op.source, sys.peers[op.source].passes[k].to, sys.nextHop, op)}
            && sys'.nextHop == sys.nextHop + 1
            && (var (q, q') := (sys.peers[op.source], sys'.peers[op.source]); q' == q.(passes := q'.passes, hops := q'.hops))
  {
  }

  // The events of one new attempt, up to its admission by `c`.
  ghost function Carrying(sys: System, c: PeerId, op: Operation): seq<Event>
    requires op.source in sys.peers
  {
    [Commit(c, op.source, Group(c, op)), Commit(c, c, Group(c, op))]
    + [Commit(op.source, c, Group(c, op)), RerouteBegins(op.source, OrderFrom(sys, op.source, op.id), false)]
    + [Submits(op.source, |sys.peers[op.source].passes|, true), Receive(c, Attempt(sys, c, op), true)]
  }

  lemma CarryingRuns(cfg: Config, sys: System, c: PeerId, op: Operation)
    requires op.source in sys.peers
    ensures Run(cfg, sys, Carrying(sys, c, op)) == ReceiveStep(cfg, Sent(sys, c, op), c, Attempt(sys, c, op), true, Done)
  {
    var M, k := Group(c, op), |sys.peers[op.source].passes|;
    var first := [Commit(c, op.source, M), Commit(c, c, M)];
    var second := [Commit(op.source, c, M), RerouteBegins(op.source, OrderFrom(sys, op.source, op.id), false)];
    RunTwo(cfg, sys, first[0], first[1]);
    RunTwo(cfg, Run(cfg, sys, first), second[0], second[1]);
    RunConcat(cfg, sys, first, second);
    RunTwo(cfg, Begun(sys, c, op), Submits(op.source, k, true), Receive(c, Attempt(sys, c, op), true));
    RunConcat(cfg, sys, first + second, [Submits(op.source, k, true), Receive(c, Attempt(sys, c, op), true)]);
  }

  // `c` coordinates and its only relay carries the operation; the source still waits.
  ghost predicate Carried(sys: System, end: System, c: PeerId, op: Operation)
    requires c in sys.peers && op.source in sys.peers
  {
    && end.peers.Keys == sys.peers.Keys && sys.net <= end.net
    && end.peers[c].coordinator == c && end.peers[c].relays == [Relay(op, sys.nextHop + 1, |op.bytes|)]
    && FinalHop(c, end.peers[c].relays[0]) in end.net
    && end.peers[op.source].sends == sys.peers[op.source].sends
    && end.peers[op.source].handles == sys.peers[op.source].handles
    && end.peers[op.source].coordinator == c
    && (Committed(end, op) <==> Committed(sys, op))
  }

  ghost predicate KeepsHops(q: Peer, q': Peer) {
    forall h :: h in q.hops ==> h in q'.hops && q'.hops[h] == q.hops[h]
  }

  // Admitted by a coordinator that is not its destination: one relay, sent at once.
  lemma CarriedByRelay(cfg: Config, sys: System, c: PeerId, op: Operation)
    requires Carriable(sys, c, op) && op.destination != c && Fits(cfg, op)
    requires sys.nextHop + 1 !in sys.peers[c].hops
    ensures var end := Run(cfg, sys, Carrying(sys, c, op));
            Carried(sys, end, c, op) && KeepsHops(sys.peers[c], end.peers[c])
  {
    var sent := Sent(sys, c, op);
    CarryingRuns(cfg, sys, c, op);
    SentAgain(sys, c, op);
    AdoptedBoth(sys, c, op);
    AdmittedAtEmpty(cfg, sent, c, op, sys.nextHop);
    assert SameAfterSent(sys, sent, c, op);
    AdmissionCarries(sys, sent, c, op);
  }

  ghost predicate SameAfterSent(sys: System, sent: System, c: PeerId, op: Operation) {
    && c in sys.peers && op.source in sys.peers && op.source != c
    && sent.peers.Keys == sys.peers.Keys && sys.net <= sent.net && sent.nextHop == sys.nextHop + 1
    && sent.peers[c].coordinator == c && sent.peers[c].hops == sys.peers[c].hops
    && sent.peers[op.source].sends == sys.peers[op.source].sends
    && sent.peers[op.source].handles == sys.peers[op.source].handles
    && sent.peers[op.source].coordinator == c
    && (Committed(sent, op) <==> Committed(sys, op))
  }

  function HopsAfterForward(hops: map<nat, Hop>, op: Operation, hop: nat): map<nat, Hop> {
    if op.mode == ReliableAcked then hops[hop := Hop(op.Key(), op.destination, true)] else hops
  }

  function AfterAdmission(sent: System, c: PeerId, op: Operation, messages: set<Message>): System
    requires c in sent.peers
  {
    var r := Relay(op, sent.nextHop, |op.bytes|);
    var q := sent.peers[c];
    With(Bind(sent, op, true), c, q.(relays := [r], hops := HopsAfterForward(q.hops, op, r.hop)), messages)
  }

  lemma AdmissionCarries(sys: System, sent: System, c: PeerId, op: Operation)
    requires SameAfterSent(sys, sent, c, op) && sys.nextHop + 1 !in sys.peers[c].hops
    ensures forall messages :: FinalHop(c, Relay(op, sent.nextHop, |op.bytes|)) in messages ==>
              var end := AfterAdmission(sent, c, op, messages); Carried(sys, end, c, op) && KeepsHops(sys.peers[c], end.peers[c])
  {
  }

  lemma AdmittedAtEmpty(cfg: Config, sent: System, c: PeerId, op: Operation, hop: nat)
    requires c in sent.peers && op.source != c && op.destination != c && op.destination != op.source && Fits(cfg, op)
    requires Reliable(op.source, c, hop, op) in sent.net
    requires var q := sent.peers[c]; q.open && q.coordinator == c && q.members == Group(c, op) && q.relays == []
    ensures exists messages :: FinalHop(c, Relay(op, sent.nextHop, |op.bytes|)) in messages &&
              ReceiveStep(cfg, sent, c, Reliable(op.source, c, hop, op), true, Done) == AfterAdmission(sent, c, op, messages)
  {
    var r := Relay(op, sent.nextHop, |op.bytes|);
    var outcome := Admitted(LimitsOf(cfg, c), [], r, hop, Group(c, op), true);
    assert Bytes([], op.destination) == 0 && Messages([], op.destination) == 0;
    var ack := if op.mode == ReliableAcked then Some(hop) else None;
    assert outcome == Outcome(Ok(Actions(sourceHopAck := ack, forward := Some(r))), [r]);
    assert ReceiveStep(cfg, sent, c, Reliable(op.source, c, hop, op), true, Done)
           == AfterAdmission(sent, c, op, Emitted(c, op.source, outcome.result.value));
  }
}
