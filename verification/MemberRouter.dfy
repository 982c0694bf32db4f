/**
 The source side of routed sends (GroupMemberRouter, RoutedSendTable,
 CancellationTombstoneTable): what a non-coordinator source keeps for each nonterminal
 send and each cancelled one, and how it treats route signalling.
 */
module MemberRouter {
  import opened Types
  import opened RelayController

  datatype Tombstone = Tombstone(destination: PeerId, mode: DeliveryMode, sessions: set<nat>)

  datatype View = View(local: PeerId, coordinator: PeerId, members: set<PeerId>)

  datatype Caps = Caps(sends: nat, tombstones: nat)

  datatype Sends = Sends(live: map<GroupMessageId, Operation>, tombstones: map<GroupMessageId, Tombstone>)

  datatype Disposition = Applied(state: SendState) | WasCancelled | Unknown

  // Every classified signal except an uncorrelated one is acknowledged.
  predicate RequiresGenericAck(d: Disposition) { !d.Unknown? }

  function Without<V>(m: map<GroupMessageId, V>, id: GroupMessageId): (r: map<GroupMessageId, V>)
    ensures r.Keys == m.Keys - {id}
    ensures forall k :: k in r ==> r[k] == m[k]
  {
    map k | k in m && k != id :: m[k]
  }

  // ---------- the specification ----------

  function Begin(s: Sends, caps: Caps, view: View, op: Operation): (Result<SendState>, Sends) {
    if |s.live| + |s.tombstones| >= caps.tombstones then (Err(ResourceExhausted), s)
    else if op.source != view.local || op.source !in view.members || op.destination !in view.members
            || op.destination == op.source then (Err(ProtocolMismatch), s)
    else if op.id in s.live then (Err(MessageIdCollision), s)
    else if |s.live| >= caps.sends then (Err(ResourceExhausted), s)
    else (Ok(Transmitting), s.(live := s.live[op.id := op]))
  }

  // The live send a signal correlates with, if the signal is consistent with it.
  function Matching(s: Sends, key: MessageKey, destination: PeerId): Result<Option<Operation>> {
    if key.id !in s.live then Ok(None)
    else if s.live[key.id].source != key.source || s.live[key.id].destination != destination then Err(ProtocolMismatch)
    else Ok(Some(s.live[key.id]))
  }

  // The tombstone that a late signal correlates with.
  function LateSignal(s: Sends, view: View, key: MessageKey, destination: PeerId, modeAllowed: DeliveryMode -> bool)
    : Result<Disposition>
  {
    if key.id !in s.tombstones || s.tombstones[key.id].destination != destination then Ok(Unknown)
    else if !modeAllowed(s.tombstones[key.id].mode) then Err(ProtocolMismatch)
    else if key.source != view.local then Err(ProtocolMismatch)
    else Ok(WasCancelled)
  }

  function OnDeliveryAck(s: Sends, view: View, from: PeerId, ack: Receipt): (Result<Disposition>, Sends) {
    if from != view.coordinator then (Err(ProtocolMismatch), s)
    else
      match Matching(s, ack.key, ack.destination)
      case Err(e) => (Err(e), s)
      case Ok(Some(op)) =>
        if op.mode != ReliableAcked then (Err(ProtocolMismatch), s)
        else (Ok(Applied(RemoteAcknowledged)), s.(live := Without(s.live, ack.key.id)))
      case Ok(None) => (LateSignal(s, view, ack.key, ack.destination, m => m == ReliableAcked), s)
  }

  function OnRelayStatus(s: Sends, view: View, from: PeerId, signal: Signal): (Result<Disposition>, Sends) {
    if from != view.coordinator then (Err(ProtocolMismatch), s)
    else
      match Matching(s, signal.key, signal.destination)
      case Err(e) => (Err(e), s)
      case Ok(Some(op)) =>
        if signal.status != SentToDestinationTransport then
          (Ok(Applied(Failed)), s.(live := Without(s.live, signal.key.id)))
        else if op.mode != ReliableOrdered then (Err(ProtocolMismatch), s)
        else (Ok(Applied(SentToTransport)), s.(live := Without(s.live, signal.key.id)))
      case Ok(None) =>
        (LateSignal(s, view, signal.key, signal.destination,
                    m => signal.status == SentToDestinationTransport ==> m == ReliableOrdered), s)
  }

  function OnSourceHopTimeout(s: Sends, id: GroupMessageId): (Result<Option<SendState>>, Sends) {
    if id !in s.live then (Ok(None), s)
    else if s.live[id].mode != ReliableAcked then (Err(ProtocolMismatch), s)
    else (Ok(Some(Failed)), s.(live := Without(s.live, id)))
  }

  // Cancelling keeps a tombstone for as long as some session can still carry a late
  // signal; the error is the tombstone table being full.
  function Cancel(s: Sends, caps: Caps, id: GroupMessageId, sessions: set<nat>): (Result<Option<Operation>>, Sends) {
    if id !in s.live then (Ok(None), s)
    else
      var op := s.live[id];
      var live := Without(s.live, id);
      if sessions == {} then (Ok(Some(op)), s.(live := live))
      else if |s.tombstones| >= caps.tombstones && id !in s.tombstones then (Err(ResourceExhausted), s.(live := live))
      else (Ok(Some(op)), Sends(live, s.tombstones[id := Tombstone(op.destination, op.mode, sessions)]))
  }

  function SessionTerminated(s: Sends, session: nat): Sends {
    s.(tombstones := map id | id in s.tombstones && s.tombstones[id].sessions - {session} != {}
                       :: s.tombstones[id].(sessions := s.tombstones[id].sessions - {session}))
  }

  // ---------- what each call decides ----------

  // Exactly this send left the table.
  ghost predicate OnlyRemoves(s: Sends, s': Sends, id: GroupMessageId) {
    && s'.tombstones == s.tombstones
    && (forall k :: k in s'.live <==> k in s.live && k != id)
    && (forall k :: k in s'.live ==> s'.live[k] == s.live[k])
  }

  // A send is accepted exactly with room for it and its tombstone, between two members,
  // under a new id; which check failed decides the error.
  lemma BeginDecided(s: Sends, caps: Caps, view: View, op: Operation)
    ensures var (r, s') := Begin(s, caps, view, op);
            var room := |s.live| + |s.tombstones| < caps.tombstones;
            var routed := op.source == view.local && {op.source, op.destination} <= view.members && op.source != op.destination;
            && (r == Ok(Transmitting) <==> room && routed && op.id !in s.live && |s.live| < caps.sends)
            && (r == Err(ProtocolMismatch) <==> room && !routed)
            && (r == Err(MessageIdCollision) <==> room && routed && op.id in s.live)
            && (r == Err(ResourceExhausted) <==> !room || (routed && op.id !in s.live && |s.live| >= caps.sends))
            && (r.Err? ==> s' == s)
            && (r.Ok? ==> s'.tombstones == s.tombstones && s'.live == s.live[op.id := op])
  {
  }

  // A signal about a live send counts exactly when the coordinator sends it, it names the
  // pair of the send and it fits the mode; then that send ends, and no other.
  lemma LiveSignalDecided(s: Sends, view: View, op: Operation, from: PeerId, source: PeerId, destination: PeerId, status: RelayStatus)
    requires op.id in s.live && s.live[op.id] == op
    ensures var named := from == view.coordinator && source == op.source && destination == op.destination;
            var (r, s') := OnDeliveryAck(s, view, from, Receipt(MessageKey(source, op.id), destination));
            && (named && op.mode == ReliableAcked ==> r == Ok(Applied(RemoteAcknowledged)) && OnlyRemoves(s, s', op.id))
            && (!(named && op.mode == ReliableAcked) ==> r == Err(ProtocolMismatch) && s' == s)
    ensures var named := from == view.coordinator && source == op.source && destination == op.destination;
            var fits := status == SentToDestinationTransport ==> op.mode == ReliableOrdered;
            var (r, s') := OnRelayStatus(s, view, from, Signal(MessageKey(source, op.id), destination, status));
            && (named && fits ==>
                  && r == Ok(Applied(if status == SentToDestinationTransport then SentToTransport else Failed))
                  && OnlyRemoves(s, s', op.id))
            && (!(named && fits) ==> r == Err(ProtocolMismatch) && s' == s)
  {
  }

  // A signal about no live send changes nothing: it is unknown without a tombstone for its
  // destination, cancelled when it fits that tombstone, and an error otherwise.
  lemma LateSignalDecided(s: Sends, view: View, key: MessageKey, destination: PeerId, status: RelayStatus)
    requires key.id !in s.live
    ensures var kept := key.id in s.tombstones && s.tombstones[key.id].destination == destination;
            && OnDeliveryAck(s, view, view.coordinator, Receipt(key, destination))
               == (if !kept then Ok(Unknown)
                   else if s.tombstones[key.id].mode == ReliableAcked && key.source == view.local then Ok(WasCancelled)
                   else Err(ProtocolMismatch), s)
            && OnRelayStatus(s, view, view.coordinator, Signal(key, destination, status))
               == (if !kept then Ok(Unknown)
                   else if StatusFits(s.tombstones[key.id].mode, status) && key.source == view.local then Ok(WasCancelled)
                   else Err(ProtocolMismatch), s)
  {
  }

  // A source hop without an ACK fails a live acknowledged send.
  lemma TimeoutDecided(s: Sends, id: GroupMessageId)
    ensures var (r, s') := OnSourceHopTimeout(s, id);
            && (id in s.live && s.live[id].mode == ReliableAcked ==> r == Ok(Some(Failed)) && OnlyRemoves(s, s', id))
            && (id in s.live && s.live[id].mode == ReliableOrdered ==> r == Err(ProtocolMismatch) && s' == s)
            && (id !in s.live ==> r == Ok(None) && s' == s)
  {
  }

  // A cancelled live send is given back and leaves the table; it keeps a tombstone iff a
  // session is named, for which the table must have room.
  lemma CancelDecided(s: Sends, caps: Caps, id: GroupMessageId, sessions: set<nat>)
    ensures var (r, s') := Cancel(s, caps, id, sessions);
            var room := |s.tombstones| < caps.tombstones || id in s.tombstones;
            && (id !in s.live ==> (r, s') == (Ok(None), s))
            && (id in s.live ==>
                  && (forall k :: k in s'.live <==> k in s.live && k != id)
                  && (r == Err(ResourceExhausted) <==> sessions != {} && !room)
                  && (r == Ok(Some(s.live[id])) <==> sessions == {} || room)
                  && s'.tombstones == (if sessions == {} || !room then s.tombstones
                                       else s.tombstones[id := Tombstone(s.live[id].destination, s.live[id].mode, sessions)]))
  {
  }

  // ---------- the router ----------

  class GroupMemberRouter {
    const caps: Caps
    var view: View
    var live: map<GroupMessageId, Operation>
    var tombstones: map<GroupMessageId, Tombstone>

    ghost function Contents(): Sends
      reads this
    {
      Sends(live, tombstones)
    }

    // Room is reserved at admission, so cancellation always finds room.
    ghost predicate Valid()
      reads this
    {
      RoomReserved(Contents(), caps)
    }

    constructor (caps: Caps, view: View)
      ensures Valid() && Contents() == Sends(map[], map[]) && this.caps == caps && this.view == view
    {
      this.caps := caps;
      this.view := view;
      live := map[];
      tombstones := map[];
    }

    method BeginSend(op: Operation) returns (r: Result<SendState>)
      requires Valid()
      modifies this`live
      ensures Valid()
      ensures (r, Contents()) == Begin(old(Contents()), caps, view, op)
    {
      if |live| + |tombstones| >= caps.tombstones { return Err(ResourceExhausted); }
      if op.source != view.local || op.source !in view.members || op.destination !in view.members
         || op.destination == op.source {
        return Err(ProtocolMismatch);
      }
      if op.id in live { return Err(MessageIdCollision); }
      if |live| >= caps.sends { return Err(ResourceExhausted); }
      live := live[op.id := op];
      r := Ok(Transmitting);
    }

    method ReceiveDeliveryAck(from: PeerId, ack: Receipt) returns (r: Result<Disposition>)
      requires Valid()
      modifies this`live
      ensures Valid()
      ensures (r, Contents()) == OnDeliveryAck(old(Contents()), view, from, ack)
    {
      if from != view.coordinator { return Err(ProtocolMismatch); }
      var id := ack.key.id;
      if id in live {
        var op := live[id];
        if op.source != ack.key.source || op.destination != ack.destination { return Err(ProtocolMismatch); }
        if op.mode != ReliableAcked { return Err(ProtocolMismatch); }
        SmallerWithout(live, id);
        live := Without(live, id);
        return Ok(Applied(RemoteAcknowledged));
      }
      if id !in tombstones || tombstones[id].destination != ack.destination { return Ok(Unknown); }
      if tombstones[id].mode != ReliableAcked { return Err(ProtocolMismatch); }
      if ack.key.source != view.local { return Err(ProtocolMismatch); }
      r := Ok(WasCancelled);
    }

    method ReceiveRelayStatus(from: PeerId, signal: Signal) returns (r: Result<Disposition>)
      requires Valid()
      modifies this`live
      ensures Valid()
      ensures (r, Contents()) == OnRelayStatus(old(Contents()), view, from, signal)
    {
      if from != view.coordinator { return Err(ProtocolMismatch); }
      var id := signal.key.id;
      if id in live {
        var op := live[id];
        if op.source != signal.key.source || op.destination != signal.destination { return Err(ProtocolMismatch); }
        if signal.status == SentToDestinationTransport && op.mode != ReliableOrdered { return Err(ProtocolMismatch); }
        SmallerWithout(live, id);
        live := Without(live, id);
        return Ok(Applied(if signal.status == SentToDestinationTransport then SentToTransport else Failed));
      }
      if id !in tombstones || tombstones[id].destination != signal.destination { return Ok(Unknown); }
      if signal.status == SentToDestinationTransport && tombstones[id].mode != ReliableOrdered {
        return Err(ProtocolMismatch);
      }
      if signal.key.source != view.local { return Err(ProtocolMismatch); }
      r := Ok(WasCancelled);
    }

    method SourceHopTimedOut(id: GroupMessageId) returns (r: Result<Option<SendState>>)
      requires Valid()
      modifies this`live
      ensures Valid()
      ensures (r, Contents()) == OnSourceHopTimeout(old(Contents()), id)
    {
      if id !in live { return Ok(None); }
      if live[id].mode != ReliableAcked { return Err(ProtocolMismatch); }
      SmallerWithout(live, id);
      live := Without(live, id);
      r := Ok(Some(Failed));
    }

    method CancelSend(id: GroupMessageId, sessions: set<nat>) returns (r: Result<Option<Operation>>)
      requires Valid()
      modifies this`live, this`tombstones
      ensures Valid()
      ensures (r, Contents()) == Cancel(old(Contents()), caps, id, sessions)
      ensures r.Ok?
    {
      if id !in live { return Ok(None); }
      var op := live[id];
      SmallerWithout(live, id);
      live := Without(live, id);
      if sessions != {} {
        tombstones := tombstones[id := Tombstone(op.destination, op.mode, sessions)];
      }
      r := Ok(Some(op));
    }

    // Visits every tombstone once, dropping the session and any emptied tombstone.
    method TerminateSession(session: nat)
      requires Valid()
      modifies this`tombstones
      ensures Valid()
      ensures Contents() == SessionTerminated(old(Contents()), session)
    {
      ghost var was := Contents();
      var pending := tombstones.Keys;
      while pending != {}
        invariant pending <= was.tombstones.Keys
        invariant tombstones == PartlyTerminated(was, session, pending)
        decreases |pending|
      {
        var id :| id in pending;
        PartlyTerminatedStep(was, session, pending, id);
        var left := tombstones[id].sessions - {session};
        tombstones := if left == {} then Without(tombstones, id)
                      else tombstones[id := tombstones[id].(sessions := left)];
        pending := pending - {id};
      }
      assert PartlyTerminated(was, session, {}) == SessionTerminated(was, session).tombstones;
      FewerTombstones(was.tombstones, tombstones);
    }

    // The unchanged operations to transmit whole through a new coordinator route.
    method CoordinatorRouteLost() returns (operations: set<Operation>)
      requires Valid()
      ensures operations == live.Values
    {
      operations := live.Values;
    }

    method Close()
      requires Valid()
      modifies this`tombstones
      ensures Valid() && tombstones == map[]
    {
      tombstones := map[];
    }
  }

  ghost predicate RoomReserved(s: Sends, caps: Caps) {
    && |s.live| + |s.tombstones| <= caps.tombstones
    && (forall id :: id in s.live ==> s.live[id].id == id)
  }

  // The tombstones after a session ended, with `pending` still to be visited.
  ghost function PartlyTerminated(s: Sends, session: nat, pending: set<GroupMessageId>): map<GroupMessageId, Tombstone> {
    map id | id in s.tombstones && (id in pending || s.tombstones[id].sessions - {session} != {})
      :: if id in pending then s.tombstones[id]
         else s.tombstones[id].(sessions := s.tombstones[id].sessions - {session})
  }

  lemma PartlyTerminatedStep(s: Sends, session: nat, pending: set<GroupMessageId>, id: GroupMessageId)
    requires id in pending && id in s.tombstones
    ensures var partly := PartlyTerminated(s, session, pending);
            && id in partly && partly[id] == s.tombstones[id]
            && PartlyTerminated(s, session, pending - {id})
               == (var left := partly[id].sessions - {session};
                   if left == {} then Without(partly, id) else partly[id := partly[id].(sessions := left)])
  {
  }

  lemma SmallerWithout<V>(m: map<GroupMessageId, V>, id: GroupMessageId)
    requires id in m
    ensures |Without(m, id)| == |m| - 1
  {
    assert Without(m, id).Keys == m.Keys - {id};
  }

  lemma FewerTombstones(more: map<GroupMessageId, Tombstone>, fewer: map<GroupMessageId, Tombstone>)
    requires fewer.Keys <= more.Keys
    ensures |fewer| <= |more|
  {
    SetSize(fewer.Keys, more.Keys);
  }

  lemma {:induction false} SetSize<T>(a: set<T>, b: set<T>)
    requires a <= b
    ensures |a| <= |b|
  {
    assert b == a + (b - a);
  }

  // ---------- runs of the source router ----------

  datatype Event =
    | BeginSend(op: Operation)
    | DeliveryAckArrives(from: PeerId, ack: Receipt)
    | RelayStatusArrives(from: PeerId, signal: Signal)
    | SourceHopTimesOut(id: GroupMessageId)
    | CancelSend(id: GroupMessageId, sessions: set<nat>)
    | SessionEnds(session: nat)
    | CoordinatorChanges(coordinator: PeerId)

  datatype State = State(view: View, sends: Sends)

  function Step(caps: Caps, st: State, e: Event): State {
    match e
    case BeginSend(op) => st.(sends := Begin(st.sends, caps, st.view, op).1)
    case DeliveryAckArrives(from, ack) => st.(sends := OnDeliveryAck(st.sends, st.view, from, ack).1)
    case RelayStatusArrives(from, signal) => st.(sends := OnRelayStatus(st.sends, st.view, from, signal).1)
    case SourceHopTimesOut(id) => st.(sends := OnSourceHopTimeout(st.sends, id).1)
    case CancelSend(id, sessions) => st.(sends := Cancel(st.sends, caps, id, sessions).1)
    case SessionEnds(session) => st.(sends := SessionTerminated(st.sends, session))
    case CoordinatorChanges(c) => st.(view := st.view.(coordinator := c))
  }

  function Run(caps: Caps, st: State, events: seq<Event>): State {
    if events == [] then st
    else Step(caps, Run(caps, st, events[..|events| - 1]), events[|events| - 1])
  }

  lemma StepReservesRoom(caps: Caps, st: State, e: Event)
    requires RoomReserved(st.sends, caps)
    ensures RoomReserved(Step(caps, st, e).sends, caps)
  {
    var s := st.sends;
    match e
    case BeginSend(op) =>
    case DeliveryAckArrives(from, ack) => if ack.key.id in s.live { SmallerWithout(s.live, ack.key.id); }
    case RelayStatusArrives(from, signal) => if signal.key.id in s.live { SmallerWithout(s.live, signal.key.id); }
    case SourceHopTimesOut(id) => if id in s.live { SmallerWithout(s.live, id); }
    case CancelSend(id, sessions) => if id in s.live { SmallerWithout(s.live, id); }
    case SessionEnds(session) => FewerTombstones(s.tombstones, SessionTerminated(s, session).tombstones);
    case CoordinatorChanges(c) =>
  }

  // Live sends and tombstones together never exceed the tombstone capacity, so no
  // cancellation in any run finds the table full.
  lemma {:induction false} CancelAlwaysHasRoom(caps: Caps, st: State, events: seq<Event>, id: GroupMessageId, sessions: set<nat>)
    requires RoomReserved(st.sends, caps)
    ensures RoomReserved(Run(caps, st, events).sends, caps)
    ensures Cancel(Run(caps, st, events).sends, caps, id, sessions).0.Ok?
  {
    if events != [] {
      CancelAlwaysHasRoom(caps, st, events[..|events| - 1], id, sessions);
      StepReservesRoom(caps, Run(caps, st, events[..|events| - 1]), events[|events| - 1]);
    }
    var end := Run(caps, st, events).sends;
    if id in end.live { SmallerWithout(end.live, id); }
  }

  predicate Begins(e: Event, id: GroupMessageId) { e.BeginSend? && e.op.id == id }

  lemma StepKeepsAbsent(caps: Caps, st: State, e: Event, id: GroupMessageId)
    requires id !in st.sends.live && !Begins(e, id)
    ensures id !in Step(caps, st, e).sends.live
  {
    match e
    case CancelSend(other, sessions) => assert id !in Cancel(st.sends, caps, other, sessions).1.live;
    case _ =>
  }

  // Once cancelled, a message is never live again, whatever signals, migrations,
  // timeouts or cancellations follow; only its own re-origination could make it so.
  lemma {:induction false} CancelledStaysCancelled(caps: Caps, st: State, events: seq<Event>, id: GroupMessageId)
    requires id !in st.sends.live
    requires forall i :: 0 <= i < |events| ==> !Begins(events[i], id)
    ensures id !in Run(caps, st, events).sends.live
  {
    if events != [] {
      CancelledStaysCancelled(caps, st, events[..|events| - 1], id);
      StepKeepsAbsent(caps, Run(caps, st, events[..|events| - 1]), events[|events| - 1], id);
    }
  }

  // The sessions that some event reports as ended.
  function EndedBy(events: seq<Event>): set<nat> {
    if events == [] then {}
    else
      var last := events[|events| - 1];
      EndedBy(events[..|events| - 1]) + (if last.SessionEnds? then {last.session} else {})
  }

  lemma {:induction false} EndedByMeaning(events: seq<Event>, session: nat)
    ensures session in EndedBy(events) <==> exists i :: 0 <= i < |events| && events[i] == SessionEnds(session)
  {
    if events != [] {
      var n := |events| - 1;
      EndedByMeaning(events[..n], session);
      assert forall i :: 0 <= i < n ==> events[..n][i] == events[i];
      if session in EndedBy(events[..n]) {
        var i :| 0 <= i < n && events[..n][i] == SessionEnds(session);
        assert events[i] == SessionEnds(session);
      }
    }
  }

  // The tombstone of a cancelled send holds exactly these sessions; none, no tombstone.
  predicate Remembers(s: Sends, op: Operation, sessions: set<nat>) {
    && op.id !in s.live
    && (if sessions == {} then op.id !in s.tombstones
        else op.id in s.tombstones && s.tombstones[op.id] == Tombstone(op.destination, op.mode, sessions))
  }

  lemma StepForgets(caps: Caps, st: State, e: Event, op: Operation, sessions: set<nat>)
    requires Remembers(st.sends, op, sessions) && !Begins(e, op.id)
    ensures Remembers(Step(caps, st, e).sends, op, sessions - (if e.SessionEnds? then {e.session} else {}))
  {
    match e
    case SessionEnds(session) =>
    case _ => assert sessions - {} == sessions;
  }

  lemma {:induction false} RunForgets(caps: Caps, st: State, events: seq<Event>, op: Operation, sessions: set<nat>)
    requires Remembers(st.sends, op, sessions)
    requires forall i :: 0 <= i < |events| ==> !Begins(events[i], op.id)
    ensures Remembers(Run(caps, st, events).sends, op, sessions - EndedBy(events))
  {
    if events == [] {
      assert sessions - {} == sessions;
    } else {
      var front, last := events[..|events| - 1], events[|events| - 1];
      RunForgets(caps, st, front, op, sessions);
      StepForgets(caps, Run(caps, st, front), last, op, sessions - EndedBy(front));
      assert sessions - EndedBy(events) == sessions - EndedBy(front) - (if last.SessionEnds? then {last.session} else {});
    }
  }

  // A relay status that the program sends for an operation of this mode.
  predicate StatusFits(mode: DeliveryMode, status: RelayStatus) {
    status == SentToDestinationTransport ==> mode == ReliableOrdered
  }

  // Some session that could carry a late signal was named at the cancellation and has not
  // ended since.
  ghost predicate StillSignalled(sessions: set<nat>, events: seq<Event>) {
    exists session :: session in sessions && forall i :: 0 <= i < |events| ==> events[i] != SessionEnds(session)
  }

  // A send is cancelled, and anything but its own re-origination follows. A late signal
  // for it, from whoever coordinates by then, names the send as cancelled and gets a
  // generic ACK exactly when some session named at the cancellation has not ended;
  // otherwise it is unknown. In either case it changes nothing.
  lemma LateSignalAfterCancel(caps: Caps, before: State, op: Operation, sessions: set<nat>, events: seq<Event>, status: RelayStatus)
    requires RoomReserved(before.sends, caps)
    requires op.id in before.sends.live && before.sends.live[op.id] == op && op.id !in before.sends.tombstones
    requires op.source == before.view.local && StatusFits(op.mode, status)
    requires forall i :: 0 <= i < |events| ==> !Begins(events[i], op.id)
    ensures var end := Run(caps, Step(caps, before, CancelSend(op.id, sessions)), events);
            var expected := if StillSignalled(sessions, events) then WasCancelled else Unknown;
            && (op.mode == ReliableAcked ==>
                  OnDeliveryAck(end.sends, end.view, end.view.coordinator, ReceiptFor(op)) == (Ok(expected), end.sends))
            && OnRelayStatus(end.sends, end.view, end.view.coordinator, SignalFor(op, status)) == (Ok(expected), end.sends)
            && (RequiresGenericAck(expected) <==> StillSignalled(sessions, events))
  {
    var cancelled := Step(caps, before, CancelSend(op.id, sessions));
    SmallerWithout(before.sends.live, op.id);
    RunForgets(caps, cancelled, events, op, sessions);
    LocalNeverChanges(caps, cancelled, events);
    LeftSessions(sessions, events);
  }

  lemma LeftSessions(sessions: set<nat>, events: seq<Event>)
    ensures StillSignalled(sessions, events) <==> sessions - EndedBy(events) != {}
  {
    if sessions - EndedBy(events) != {} {
      var session :| session in sessions - EndedBy(events);
      EndedByMeaning(events, session);
      assert forall i :: 0 <= i < |events| ==> events[i] != SessionEnds(session);
    }
    if StillSignalled(sessions, events) {
      var session :| session in sessions && forall i :: 0 <= i < |events| ==> events[i] != SessionEnds(session);
      EndedByMeaning(events, session);
      assert session in sessions - EndedBy(events);
    }
  }

  // The runtime names no session when it cancels, so every late signal is unknown and
  // none gets a generic ACK.
  lemma RuntimeCancelForgets(caps: Caps, before: State, op: Operation, events: seq<Event>, status: RelayStatus)
    requires RoomReserved(before.sends, caps)
    requires op.id in before.sends.live && before.sends.live[op.id] == op && op.id !in before.sends.tombstones
    requires op.source == before.view.local && StatusFits(op.mode, status)
    requires forall i :: 0 <= i < |events| ==> !Begins(events[i], op.id)
    ensures var end := Run(caps, Step(caps, before, CancelSend(op.id, {})), events);
            && (op.mode == ReliableAcked ==>
                  OnDeliveryAck(end.sends, end.view, end.view.coordinator, ReceiptFor(op)).0 == Ok(Unknown))
            && OnRelayStatus(end.sends, end.view, end.view.coordinator, SignalFor(op, status)).0 == Ok(Unknown)
            && !RequiresGenericAck(Unknown)
  {
    LateSignalAfterCancel(caps, before, op, {}, events, status);
  }

  lemma {:induction false} LocalNeverChanges(caps: Caps, st: State, events: seq<Event>)
    ensures Run(caps, st, events).view.local == st.view.local
  {
    if events != [] {
      LocalNeverChanges(caps, st, events[..|events| - 1]);
    }
  }
}
