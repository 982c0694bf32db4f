/**
 What every run of the Android link tables keeps: inverse tables over one key set, fresh
 endpoint IDs and generations, one unacknowledged notification per endpoint, and one
 well-formed event trace per server endpoint.
 */
module AndroidRuns {
  import opened Types
  import B = GattBackend
  import N = NotificationQueue
  import opened AndroidLinks

  // ---------- the trace of one server endpoint ----------

  function Own(trace: seq<Event>, n: nat): seq<Event> {
    if trace == [] then []
    else if trace[|trace| - 1].endpoint == Server(n) then Own(trace[..|trace| - 1], n) + [trace[|trace| - 1]]
    else Own(trace[..|trace| - 1], n)
  }

  lemma OwnEmit(trace: seq<Event>, e: Event, n: nat)
    ensures Own(trace + [e], n) == if e.endpoint == Server(n) then Own(trace, n) + [e] else Own(trace, n)
  {
    assert (trace + [e])[..|trace|] == trace;
  }

  // At most one connected event, at most one disconnected event, and nothing after it.
  ghost predicate WellFormed(own: seq<Event>) {
    && (forall i, j :: 0 <= i < j < |own| ==> !(own[i].Connected? && own[j].Connected?))
    && (forall i :: 0 <= i < |own| - 1 ==> !own[i].Disconnected?)
  }

  ghost predicate Has(own: seq<Event>, connected: bool) {
    exists i :: 0 <= i < |own| && (if connected then own[i].Connected? else own[i].Disconnected?)
  }

  ghost predicate TraceOk(t: Tables, n: nat) {
    var own := Own(t.trace, n);
    && WellFormed(own)
    && (n in t.server.peers ==> !Has(own, false) && (Has(own, true) <==> n in t.server.ready))
    && (n >= t.server.next ==> own == [])
  }

  // ---------- the tables of one server endpoint ----------

  ghost predicate LinkOk(t: Tables, n: nat) {
    && (n in t.server.peers ==>
          && n < t.server.next && n in t.server.generations
          && t.server.peers[n] in t.server.endpointByAddress && t.server.endpointByAddress[t.server.peers[n]] == n
          && N.Inv(NotifierOf(t.server, n)) && n in t.server.taken && n in t.server.handed && t.server.taken[n] == N.Taken(NotifierOf(t.server, n)))
    && (n !in t.server.peers ==> n !in t.server.generations && n !in t.server.ready && n !in t.server.queues && n !in t.server.inFlight)
    && (n in t.server.queues ==> t.server.queues[n] != [])
    && (n in t.server.handed ==> n in t.server.taken && t.server.handed[n] <= t.server.taken[n])
  }

  ghost predicate AddressOk(t: Tables, a: Address) {
    a in t.server.endpointByAddress ==> t.server.endpointByAddress[a] in t.server.peers && t.server.peers[t.server.endpointByAddress[a]] == a
  }

  ghost predicate Links(t: Tables) {
    && (forall n: nat :: LinkOk(t, n) && TraceOk(t, n))
    && (forall a: Address :: AddressOk(t, a))
  }

  // ---------- generations ----------

  ghost predicate FreshGenerations(t: Tables) {
    && (forall n :: n in t.server.generations ==> t.server.generations[n] < t.nextGeneration)
    && (forall a :: a in t.central.handles ==> t.central.handles[a] < t.nextGeneration)
    && (forall n, m :: n in t.server.generations && m in t.server.generations && t.server.generations[n] == t.server.generations[m] ==> n == m)
    && (forall a, b :: a in t.central.handles && b in t.central.handles && t.central.handles[a] == t.central.handles[b] ==> a == b)
    && (forall n, a :: n in t.server.generations && a in t.central.handles ==> t.server.generations[n] != t.central.handles[a])
    && t.central.generations == t.central.handles
    && (forall a :: a in t.central.clients ==> a in t.central.handles && t.central.clients[a].gatt == t.central.handles[a])
  }

  // ---------- steps that touch one server endpoint ----------

  // Nothing that LinkOk, TraceOk or AddressOk look at has changed for `n`.
  ghost predicate SameLink(t: Tables, t': Tables, n: nat) {
    && (n in t.server.peers <==> n in t'.server.peers) && (n in t.server.peers ==> t'.server.peers[n] == t.server.peers[n])
    && (n in t.server.generations <==> n in t'.server.generations)
    && (n in t.server.ready <==> n in t'.server.ready)
    && (n in t.server.queues <==> n in t'.server.queues) && (n in t.server.queues ==> t'.server.queues[n] == t.server.queues[n])
    && (n in t.server.inFlight <==> n in t'.server.inFlight)
    && (n in t.server.handed <==> n in t'.server.handed) && (n in t.server.handed ==> t'.server.handed[n] == t.server.handed[n])
    && (n in t.server.taken <==> n in t'.server.taken) && (n in t.server.taken ==> t'.server.taken[n] == t.server.taken[n])
    && Own(t'.trace, n) == Own(t.trace, n)
    && t'.server.next >= t.server.next
    && (n in t.server.peers && t.server.peers[n] in t.server.endpointByAddress && t.server.endpointByAddress[t.server.peers[n]] == n ==>
          t.server.peers[n] in t'.server.endpointByAddress && t'.server.endpointByAddress[t.server.peers[n]] == n)
  }

  lemma SameLinkKeeps(t: Tables, t': Tables, n: nat)
    requires LinkOk(t, n) && TraceOk(t, n) && SameLink(t, t', n)
    ensures LinkOk(t', n) && TraceOk(t', n)
  {
    assert NotifierOf(t'.server, n) == NotifierOf(t.server, n);
  }

  lemma EndedKeeps(t: Tables, n: nat)
    requires Links(t) && n in t.server.peers
    ensures Links(Ended(t, n))
  {
    var t' := Ended(t, n);
    assert LinkOk(t, n);
    forall m: nat ensures LinkOk(t', m) && TraceOk(t', m) {
      assert LinkOk(t, m) && TraceOk(t, m);
      OwnEmit(t.trace, Disconnected(Server(n), Get(t.server.generations, n)), m);
      if m != n { SameLinkKeeps(t, t', m); }
    }
    forall a: Address ensures AddressOk(t', a) { assert AddressOk(t, a) && LinkOk(t, n); }
  }

  // ---------- steps ----------

  datatype Step =
    | ServerConnects(address: Address)
    | ServerDrops(address: Address)
    | Writes(address: Address)
    | Subscribes(address: Address)
    | Acknowledges(address: Address, success: bool, platform: bool)
    | Submits(endpoint: Endpoint, fragment: seq<Byte>, notify: bool, platform: bool)
    | Closes(endpoint: Endpoint, requested: Option<nat>, preserve: bool)
    | ReleasesParked(gone: Option<PeerId>, address: Address)
    | Associates(endpoint: Endpoint, peer: PeerId)
    | Connects(address: Address, started: bool)
    | ClientState(address: Address, gatt: nat, ok: bool, proceeds: bool)
    | Discovers(address: Address, gatt: nat, found: bool, subscribes: bool)
    | DescriptorDone(address: Address, gatt: nat, ok: bool)
    | WriteDone(address: Address, gatt: nat, ok: bool)
    | Notifies(address: Address, gatt: nat)
    | TurnsOff(order: seq<Endpoint>)
    | Stops

  function LiveEndpoints(t: Tables): set<Endpoint> {
    (set a | a in t.central.generations :: Central(a)) + (set a | a in t.central.clients :: Central(a))
    + (set n | n in t.server.generations :: Server(n))
  }

  // Each live endpoint once.
  predicate Lists(t: Tables, order: seq<Endpoint>) {
    (set e | e in order) == LiveEndpoints(t) && (forall i, j :: 0 <= i < j < |order| ==> order[i] != order[j])
  }

  // Callbacks of a central link come only while the plugin holds a handle for its address.
  function Next(t: Tables, s: Step): Tables {
    match s
    case ServerConnects(a) => ServerConnected(t, a)
    case ServerDrops(a) => ServerLost(t, a)
    case Writes(a) => FragmentWritten(t, a)
    case Subscribes(a) => Subscribed(t, a)
    case Acknowledges(a, success, platform) => NotificationSent(t, a, success, platform)
    case Submits(e, fragment, notify, platform) => Submit(t, e, fragment, notify, platform).1
    case Closes(e, requested, preserve) => Close(t, e, requested, preserve)
    case ReleasesParked(peerId, a) => ReleaseDeferred(t, peerId, a)
    case Associates(e, peerId) => t.(peerIds := t.peerIds[e := peerId])
    case Connects(a, started) => Connect(t, a, started).1
    case ClientState(a, gatt, ok, proceeds) => if a in t.central.handles then ClientStateChanged(t, a, gatt, ok, proceeds) else t
    case Discovers(a, gatt, found, subscribes) => if a in t.central.handles then ServicesDiscovered(t, a, gatt, found, subscribes) else t
    case DescriptorDone(a, gatt, ok) => if a in t.central.handles then DescriptorWritten(t, a, gatt, ok) else t
    case WriteDone(a, gatt, ok) => if a in t.central.handles then CharacteristicWritten(t, a, gatt, ok) else t
    case Notifies(a, gatt) => if a in t.central.handles then CharacteristicChanged(t, a, gatt) else t
    case TurnsOff(order) => if Lists(t, order) then Stopped(EmitAll(t, Farewells(t, order))) else t
    case Stops => Stopped(t)
  }

  function Run(steps: seq<Step>): Tables {
    if steps == [] then EMPTY else Next(Run(steps[..|steps| - 1]), steps[|steps| - 1])
  }

  // ---------- server steps keep the links ----------

  ghost predicate ServerSame(t: Tables, t': Tables) { t'.server == t.server }

  // The server tables stand, and nothing was said about server endpoints.
  lemma ServerSameKeeps(t: Tables, t': Tables)
    requires Links(t) && ServerSame(t, t')
    requires t'.trace == t.trace || exists e: Event :: t'.trace == t.trace + [e] && e.endpoint.Central?
    ensures Links(t')
  {
    forall n: nat ensures LinkOk(t', n) && TraceOk(t', n) {
      assert LinkOk(t, n) && TraceOk(t, n);
      if t'.trace != t.trace {
        var e: Event :| t'.trace == t.trace + [e] && e.endpoint.Central?;
        OwnEmit(t.trace, e, n);
      }
      SameLinkKeeps(t, t', n);
    }
    forall a: Address ensures AddressOk(t', a) { assert AddressOk(t, a); }
  }

  lemma ConnectedKeeps(t: Tables, a: Address)
    requires Links(t)
    ensures Links(ServerConnected(t, a))
  {
    var t' := ServerConnected(t, a);
    if a in t.server.endpointByAddress {
      ServerSameKeeps(t, t');
    } else {
      forall n: nat ensures LinkOk(t', n) && TraceOk(t', n) {
        assert LinkOk(t, n) && TraceOk(t, n);
        if n != t.server.next { SameLinkKeeps(t, t', n); }
      }
      forall b: Address ensures AddressOk(t', b) { assert AddressOk(t, b) && LinkOk(t, t.server.next); }
    }
  }

  lemma ReleasedKeeps(t: Tables, peerId: Option<PeerId>, a: Address)
    requires Links(t)
    ensures Links(ReleaseDeferred(t, peerId, a))
  {
    ServerSameKeeps(t, ReleaseDeferred(t, peerId, a));
  }

  lemma LostKeeps(t: Tables, a: Address)
    requires Links(t)
    ensures Links(ServerLost(t, a))
  {
    var uncounted := t.(counts := t.counts - {a});
    ServerSameKeeps(t, uncounted);
    if Or(Get(t.counts, a), 1) > 1 {
      ServerSameKeeps(t, ServerLost(t, a));
    } else if a in t.server.endpointByAddress {
      assert AddressOk(t, a);
      LostEndpointKeeps(uncounted, t.server.endpointByAddress[a], a, t.peerIds - {Server(t.server.endpointByAddress[a])},
                        Get(t.peerIds, Server(t.server.endpointByAddress[a])));
    } else {
      ReleasedKeeps(uncounted, None, a);
      ReleasedKeeps(ReleaseDeferred(uncounted, None, a), None, a);
    }
  }

  lemma LostEndpointKeeps(t: Tables, n: nat, a: Address, peerIds: map<Endpoint, PeerId>, peerId: Option<PeerId>)
    requires Links(t) && n in t.server.peers
    ensures var gone := Ended(t, n).(peerIds := peerIds);
            && Links(ReleaseDeferred(gone, peerId, a))
            && Links(ReleaseDeferred(ReleaseDeferred(gone, peerId, a), None, a))
  {
    EndedKeeps(t, n);
    var gone := Ended(t, n).(peerIds := peerIds);
    ServerSameKeeps(Ended(t, n), gone);
    ReleasedKeeps(gone, peerId, a);
    ReleasedKeeps(ReleaseDeferred(gone, peerId, a), None, a);
  }

  // One more event about a live endpoint that is not its end.
  lemma SaidKeeps(t: Tables, t': Tables, n: nat, e: Event)
    requires Links(t) && n in t.server.peers && e.endpoint == Server(n) && !e.Disconnected?
    requires t'.server.(ready := t.server.ready) == t.server && t'.trace == t.trace + [e]
    requires if e.Connected? then n !in t.server.ready && t'.server.ready == t.server.ready + {n} else t'.server.ready == t.server.ready
    ensures Links(t')
  {
    forall m: nat ensures LinkOk(t', m) && TraceOk(t', m) {
      assert LinkOk(t, m) && TraceOk(t, m);
      OwnEmit(t.trace, e, m);
      if m != n {
        SameLinkKeeps(t, t', m);
      } else {
        SaidOwn(t, t', n, e);
      }
    }
    forall a: Address ensures AddressOk(t', a) { assert AddressOk(t, a); }
  }

  lemma SaidOwn(t: Tables, t': Tables, n: nat, e: Event)
    requires TraceOk(t, n) && n in t.server.peers && t'.server.peers == t.server.peers && t'.server.next == t.server.next && n < t.server.next
    requires e.endpoint == Server(n) && !e.Disconnected? && Own(t'.trace, n) == Own(t.trace, n) + [e]
    requires if e.Connected? then n !in t.server.ready && t'.server.ready == t.server.ready + {n} else t'.server.ready == t.server.ready
    ensures TraceOk(t', n)
  {
    var own := Own(t.trace, n);
    var own' := Own(t'.trace, n);
    forall i | 0 <= i < |own| ensures !own[i].Disconnected? && (e.Connected? ==> !own[i].Connected?) {
      assert !Has(own, false) && (e.Connected? ==> !Has(own, true));
    }
    assert own'[|own|] == e;
    if n in t.server.ready {
      var i :| 0 <= i < |own| && own[i].Connected?;
      assert own'[i].Connected?;
    }
  }

  // ---------- notifications ----------

  // A live endpoint's notifier moves on, with everything it took so far.
  lemma NotifierKeeps(t: Tables, n: nat, q: N.Notifier, taken: seq<seq<Byte>>)
    requires Links(t) && n in t.server.peers && N.Inv(q) && q.known && taken == N.Taken(q)
    ensures Links(t.(server := WithNotifier(t.server, n, q).(taken := t.server.taken[n := taken])))
  {
    var t' := t.(server := WithNotifier(t.server, n, q).(taken := t.server.taken[n := taken]));
    forall m: nat ensures LinkOk(t', m) && TraceOk(t', m) {
      assert LinkOk(t, m) && TraceOk(t, m);
      if m != n {
        SameLinkKeeps(t, t', m);
      } else {
        assert NotifierOf(t'.server, n) == q;
      }
    }
    forall a: Address ensures AddressOk(t', a) { assert AddressOk(t, a); }
  }

  lemma SentKeeps(t: Tables, a: Address, success: bool, platform: bool)
    requires Links(t)
    ensures Links(NotificationSent(t, a, success, platform))
  {
    if a in t.server.endpointByAddress && t.server.endpointByAddress[a] in t.server.queues {
      var n := t.server.endpointByAddress[a];
      assert AddressOk(t, a);
      if N.Acknowledged(NotifierOf(t.server, n), success, platform).known {
        SentOnKeeps(t, a, n, success, platform);
      } else {
        var uncounted := t.(counts := t.counts - {a});
        ServerSameKeeps(t, uncounted);
        EndedKeeps(uncounted, n);
      }
    }
  }

  lemma SentOnKeeps(t: Tables, a: Address, n: nat, success: bool, platform: bool)
    requires Links(t) && n in t.server.peers && N.Acknowledged(NotifierOf(t.server, n), success, platform).known
    ensures Links(Emit(t.(server := WithNotifier(t.server, n, N.Acknowledged(NotifierOf(t.server, n), success, platform))), Writable(Server(n), Get(t.server.generations, n))))
  {
    var q := N.Acknowledged(NotifierOf(t.server, n), success, platform);
    assert LinkOk(t, n);
    N.AcknowledgedKeeps(NotifierOf(t.server, n), success, platform);
    NotifierKeeps(t, n, q, t.server.taken[n]);
    var moved := t.(server := WithNotifier(t.server, n, q));
    assert t.server.taken[n := t.server.taken[n]] == t.server.taken;
    SaidKeeps(moved, Emit(moved, Writable(Server(n), Get(t.server.generations, n))), n, Writable(Server(n), Get(t.server.generations, n)));
  }

  lemma FailedKeeps(t: Tables, n: nat)
    requires Links(t) && n in t.server.peers
    ensures Links(NotificationFailed(t, n, t.server.peers[n]))
  {
    var uncounted := t.(counts := t.counts - {t.server.peers[n]});
    ServerSameKeeps(t, uncounted);
    LostEndpointKeeps(uncounted, n, t.server.peers[n], t.peerIds - {Server(n)}, Get(t.peerIds, Server(n)));
  }

  lemma SubmitServerKeeps(t: Tables, n: nat, fragment: seq<Byte>, platform: bool)
    requires Links(t)
    ensures Links(SubmitToServer(t, n, fragment, platform).1)
  {
    if n in t.server.peers {
      assert LinkOk(t, n);
      var (r, q) := N.Submit(NotifierOf(t.server, n), fragment, platform);
      N.SubmitKeeps(NotifierOf(t.server, n), fragment, platform);
      if r == B.Submitted {
        NotifierKeeps(t, n, q, t.server.taken[n] + [fragment]);
      } else if r == B.TerminalFailure {
        FailedKeeps(t, n);
      }
    }
  }

  // ---------- closing and stopping ----------

  // An explicit close says nothing, and the endpoint is gone for good.
  lemma RetiredKeeps(t: Tables, n: nat)
    requires Links(t)
    ensures Links(t.(server := Without(t.server, n)))
  {
    var t' := t.(server := Without(t.server, n));
    assert LinkOk(t, n);
    forall m: nat ensures LinkOk(t', m) && TraceOk(t', m) {
      assert LinkOk(t, m) && TraceOk(t, m);
      if m != n { SameLinkKeeps(t, t', m); }
    }
    forall a: Address ensures AddressOk(t', a) { assert AddressOk(t, a); }
  }

  lemma CloseCentralSame(t: Tables, a: Address, preserve: bool)
    ensures ServerSame(t, CloseCentral(t, a, preserve)) && CloseCentral(t, a, preserve).trace == t.trace
  {
  }

  lemma CloseKeeps(t: Tables, e: Endpoint, requested: Option<nat>, preserve: bool)
    requires Links(t)
    ensures Links(Close(t, e, requested, preserve))
  {
    if e.Central? {
      CloseCentralSame(t, e.address, preserve);
      ServerSameKeeps(t, CloseCentral(t, e.address, preserve));
    } else {
      RetiredKeeps(t, e.n);
      ServerSameKeeps(t.(server := Without(t.server, e.n)), t.(server := Without(t.server, e.n), peerIds := t.peerIds - {e}));
    }
  }

  // Everything stops after some endpoints got their one farewell.
  lemma StoppedLink(t: Tables, es: seq<Event>, n: nat)
    requires LinkOk(t, n) && TraceOk(t, n)
    requires Own(t.trace + es, n) == Own(t.trace, n)
             || (n in t.server.peers && exists e: Event :: e.Disconnected? && Own(t.trace + es, n) == Own(t.trace, n) + [e])
    ensures LinkOk(Stopped(EmitAll(t, es)), n) && TraceOk(Stopped(EmitAll(t, es)), n)
  {
    var own := Own(t.trace, n);
    if n in t.server.peers {
      forall i | 0 <= i < |own| ensures !own[i].Disconnected? { assert !Has(own, false); }
    }
  }

  lemma Associate(a: seq<Event>, b: seq<Event>, e: Event)
    ensures a + (b + [e]) == (a + b) + [e]
  {
  }

  lemma {:induction false} OwnOfMany(trace: seq<Event>, es: seq<Event>, n: nat)
    ensures Own(trace + es, n) == Own(trace, n) + Own(es, n)
  {
    if es == [] {
      assert trace + es == trace;
    } else {
      var front, e := es[..|es| - 1], es[|es| - 1];
      OwnOfMany(trace, front, n);
      Associate(trace, front, e);
      assert es == front + [e];
      OwnEmit(trace + front, e, n);
      Associate(Own(trace, n), Own(front, n), e);
    }
  }

  // A list that names every live endpoint once says farewell once, and to the live only.
  lemma {:induction false} FarewellOnce(t: Tables, order: seq<Endpoint>, k: nat, n: nat)
    requires k <= |order| && forall i, j :: 0 <= i < j < |order| ==> order[i] != order[j]
    ensures var own := Own(Farewells(t, order)[..k], n);
            if Server(n) in order[..k] then own == [Disconnected(Server(n), CurrentGeneration(t, Server(n)))] else own == []
  {
    if k != 0 {
      FarewellOnce(t, order, k - 1, n);
      var es := Farewells(t, order);
      assert es[..k] == es[..k - 1] + [es[k - 1]] && order[..k] == order[..k - 1] + [order[k - 1]];
      OwnEmit(es[..k - 1], es[k - 1], n);
      assert Server(n) in order[..k - 1] ==> order[k - 1] != Server(n);
    }
  }

  lemma FarewellOwn(t: Tables, order: seq<Endpoint>, n: nat)
    requires forall i, j :: 0 <= i < j < |order| ==> order[i] != order[j]
    ensures Own(t.trace + Farewells(t, order), n)
            == (if Server(n) in order then Own(t.trace, n) + [Disconnected(Server(n), CurrentGeneration(t, Server(n)))]
                else Own(t.trace, n))
  {
    var es := Farewells(t, order);
    FarewellOnce(t, order, |order|, n);
    assert es[..|order|] == es && order[..|order|] == order;
    OwnOfMany(t.trace, es, n);
    assert Own(t.trace, n) + [] == Own(t.trace, n);
  }

  lemma TurnsOffLink(t: Tables, order: seq<Endpoint>, n: nat)
    requires LinkOk(t, n) && TraceOk(t, n) && Lists(t, order)
    ensures var end := Stopped(EmitAll(t, Farewells(t, order))); LinkOk(end, n) && TraceOk(end, n)
  {
    FarewellOwn(t, order, n);
    if Server(n) in order {
      assert Server(n) in LiveEndpoints(t);
    }
    StoppedLink(t, Farewells(t, order), n);
  }

  lemma TurnsOffKeeps(t: Tables, order: seq<Endpoint>)
    requires Links(t) && Lists(t, order)
    ensures Links(Stopped(EmitAll(t, Farewells(t, order))))
  {
    forall n: nat ensures LinkOk(Stopped(EmitAll(t, Farewells(t, order))), n) && TraceOk(Stopped(EmitAll(t, Farewells(t, order))), n) {
      assert LinkOk(t, n) && TraceOk(t, n);
      TurnsOffLink(t, order, n);
    }
  }

  lemma StopsKeeps(t: Tables)
    requires Links(t)
    ensures Links(Stopped(t))
  {
    forall n: nat ensures LinkOk(Stopped(t), n) && TraceOk(Stopped(t), n) {
      assert LinkOk(t, n) && TraceOk(t, n);
      assert t.trace + [] == t.trace;
      StoppedLink(t, [], n);
    }
  }

  // A central step leaves the server tables alone and speaks of central endpoints only.
  ghost predicate CentralMove(t: Tables, t': Tables) {
    && ServerSame(t, t')
    && (t'.trace == t.trace || exists e: Event :: t'.trace == t.trace + [e] && e.endpoint.Central?)
  }

  lemma EmitMove(t: Tables, t': Tables, e: Event)
    requires ServerSame(t, t') && t'.trace == t.trace && e.endpoint.Central?
    ensures CentralMove(t, Emit(t', e))
  {
  }

  lemma FailMove(t: Tables, t': Tables, a: Address, gatt: nat)
    requires ServerSame(t, t') && t'.trace == t.trace
    ensures CentralMove(t, FailGatt(t', a, gatt))
  {
    EmitMove(t, RemoveHandle(t', a, gatt), Disconnected(Central(a), Get(t'.central.generations, a)));
  }

  lemma ClientStateMove(t: Tables, a: Address, gatt: nat, ok: bool, proceeds: bool)
    ensures CentralMove(t, ClientStateChanged(t, a, gatt, ok, proceeds))
  {
    FailMove(t, t, a, gatt);
    EmitMove(t, RemoveHandle(t, a, gatt), Disconnected(Central(a), Some(gatt)));
  }

  lemma DiscoversMove(t: Tables, a: Address, gatt: nat, found: bool, subscribes: bool)
    ensures CentralMove(t, ServicesDiscovered(t, a, gatt, found, subscribes))
  {
    FailMove(t, t, a, gatt);
    FailMove(t, WithClient(t, a, Client(gatt, false, false)), a, gatt);
  }

  lemma DescriptorMove(t: Tables, a: Address, gatt: nat, ok: bool)
    ensures CentralMove(t, DescriptorWritten(t, a, gatt, ok))
  {
    FailMove(t, t, a, gatt);
    EmitMove(t, t, Connected(Central(a), Some(gatt)));
    if a in t.central.clients {
      EmitMove(t, WithClient(t, a, t.central.clients[a].(connectedEmitted := true)), Connected(Central(a), Some(gatt)));
    }
  }

  lemma WriteDoneMove(t: Tables, a: Address, gatt: nat, ok: bool)
    ensures CentralMove(t, CharacteristicWritten(t, a, gatt, ok))
  {
    FailMove(t, WriteFree(t, a), a, gatt);
    EmitMove(t, WriteFree(t, a), Writable(Central(a), Some(gatt)));
  }

  // A client callback leaves the server side alone.
  lemma CallbackKeepsLinks(t: Tables, s: Step)
    requires Links(t)
    requires s.ClientState? || s.Discovers? || s.DescriptorDone? || s.WriteDone? || s.Notifies?
    ensures Links(Next(t, s))
  {
    match s
    case ClientState(a, gatt, ok, proceeds) =>
      ClientStateMove(t, a, gatt, ok, proceeds);
      ServerSameKeeps(t, ClientStateChanged(t, a, gatt, ok, proceeds));
    case Discovers(a, gatt, found, subscribes) =>
      DiscoversMove(t, a, gatt, found, subscribes);
      ServerSameKeeps(t, ServicesDiscovered(t, a, gatt, found, subscribes));
    case DescriptorDone(a, gatt, ok) =>
      DescriptorMove(t, a, gatt, ok);
      ServerSameKeeps(t, DescriptorWritten(t, a, gatt, ok));
    case WriteDone(a, gatt, ok) =>
      WriteDoneMove(t, a, gatt, ok);
      ServerSameKeeps(t, CharacteristicWritten(t, a, gatt, ok));
    case Notifies(a, gatt) =>
      EmitMove(t, t, FragmentReceived(Central(a), Some(gatt)));
      ServerSameKeeps(t, CharacteristicChanged(t, a, gatt));
  }

  lemma NextKeepsLinks(t: Tables, s: Step)
    requires Links(t)
    ensures Links(Next(t, s))
  {
    match s
    case ServerConnects(a) => ConnectedKeeps(t, a);
    case ServerDrops(a) => LostKeeps(t, a);
    case Writes(a) => WrittenKeeps(t, a);
    case Subscribes(a) => SubscribedKeeps(t, a);
    case Acknowledges(a, success, platform) => SentKeeps(t, a, success, platform);
    case Submits(e, fragment, notify, platform) =>
      if e.Server? { SubmitServerKeeps(t, e.n, fragment, platform); }
      else { ServerSameKeeps(t, SubmitToClient(t, e.address, notify, platform).1); }
    case Closes(e, requested, preserve) => CloseKeeps(t, e, requested, preserve);
    case ReleasesParked(peerId, a) => ReleasedKeeps(t, peerId, a);
    case Associates(e, peerId) => ServerSameKeeps(t, t.(peerIds := t.peerIds[e := peerId]));
    case Connects(a, started) => ServerSameKeeps(t, Connect(t, a, started).1);
    case ClientState(_, _, _, _) => CallbackKeepsLinks(t, s);
    case Discovers(_, _, _, _) => CallbackKeepsLinks(t, s);
    case DescriptorDone(_, _, _) => CallbackKeepsLinks(t, s);
    case WriteDone(_, _, _) => CallbackKeepsLinks(t, s);
    case Notifies(_, _) => CallbackKeepsLinks(t, s);
    case TurnsOff(order) => if Lists(t, order) { TurnsOffKeeps(t, order); }
    case Stops => StopsKeeps(t);
  }

  lemma WrittenKeeps(t: Tables, a: Address)
    requires Links(t)
    ensures Links(FragmentWritten(t, a))
  {
    if a in t.server.endpointByAddress {
      var n := t.server.endpointByAddress[a];
      assert AddressOk(t, a);
      SaidKeeps(t, FragmentWritten(t, a), n, FragmentReceived(Server(n), Get(t.server.generations, n)));
    }
  }

  lemma SubscribedKeeps(t: Tables, a: Address)
    requires Links(t)
    ensures Links(Subscribed(t, a))
  {
    if a in t.server.endpointByAddress && t.server.endpointByAddress[a] !in t.server.ready {
      var n := t.server.endpointByAddress[a];
      assert AddressOk(t, a);
      SaidKeeps(t, Subscribed(t, a), n, Connected(Server(n), Get(t.server.generations, n)));
    }
  }

  // ---------- generations ----------

  ghost predicate Fewer(t: Tables, t': Tables) {
    && t'.nextGeneration >= t.nextGeneration
    && (forall n :: n in t'.server.generations ==> n in t.server.generations && t'.server.generations[n] == t.server.generations[n])
    && (forall a :: a in t'.central.handles ==> a in t.central.handles && t'.central.handles[a] == t.central.handles[a])
    && t'.central.generations == t'.central.handles
    && (forall a :: a in t'.central.clients ==> a in t'.central.handles && t'.central.clients[a].gatt == t'.central.handles[a])
  }

  lemma FewerFresh(t: Tables, t': Tables)
    requires FreshGenerations(t) && Fewer(t, t')
    ensures FreshGenerations(t')
  {
  }

  lemma RemoveFewer(t: Tables, a: Address, gatt: nat)
    requires FreshGenerations(t)
    ensures Fewer(t, RemoveHandle(t, a, gatt)) && FreshGenerations(RemoveHandle(t, a, gatt))
  {
  }

  lemma ReleaseFewer(t: Tables, gone: set<Address>)
    requires FreshGenerations(t)
    ensures Fewer(t, Released(t, gone)) && FreshGenerations(Released(t, gone))
  {
  }

  lemma FailFresh(t: Tables, a: Address, gatt: nat)
    requires FreshGenerations(t)
    ensures FreshGenerations(FailGatt(t, a, gatt))
  {
    RemoveFewer(t, a, gatt);
  }

  lemma ClientFresh(t: Tables, a: Address, c: Client)
    requires FreshGenerations(t) && a in t.central.handles && t.central.handles[a] == c.gatt
    ensures FreshGenerations(WithClient(t, a, c))
  {
  }

  lemma ClientStateFresh(t: Tables, a: Address, gatt: nat, ok: bool, proceeds: bool)
    requires FreshGenerations(t)
    ensures FreshGenerations(ClientStateChanged(t, a, gatt, ok, proceeds))
  {
    FailFresh(t, a, gatt);
    RemoveFewer(t, a, gatt);
    SameFresh(RemoveHandle(t, a, gatt), Emit(RemoveHandle(t, a, gatt), Disconnected(Central(a), Some(gatt))));
    var unparked := t.(central := t.central.(parked := t.central.parked - {a}));
    SameFresh(t, unparked);
    RemoveFewer(unparked, a, gatt);
  }

  lemma DiscoversFresh(t: Tables, a: Address, gatt: nat, found: bool, subscribes: bool)
    requires FreshGenerations(t) && a in t.central.handles
    ensures FreshGenerations(ServicesDiscovered(t, a, gatt, found, subscribes))
  {
    FailFresh(t, a, gatt);
    if t.central.handles[a] == gatt {
      ClientFresh(t, a, Client(gatt, false, false));
      FailFresh(WithClient(t, a, Client(gatt, false, false)), a, gatt);
    }
  }

  lemma DescriptorFresh(t: Tables, a: Address, gatt: nat, ok: bool)
    requires FreshGenerations(t)
    ensures FreshGenerations(DescriptorWritten(t, a, gatt, ok))
  {
    FailFresh(t, a, gatt);
    if a in t.central.clients { ClientFresh(t, a, t.central.clients[a].(connectedEmitted := true)); }
  }

  lemma WriteDoneFresh(t: Tables, a: Address, gatt: nat, ok: bool)
    requires FreshGenerations(t)
    ensures FreshGenerations(CharacteristicWritten(t, a, gatt, ok))
  {
    if a in t.central.clients { ClientFresh(t, a, t.central.clients[a].(writeInFlight := false)); }
    FailFresh(WriteFree(t, a), a, gatt);
  }

  lemma NewServerFresh(t: Tables, a: Address)
    requires FreshGenerations(t)
    ensures FreshGenerations(ServerConnected(t, a))
  {
  }

  lemma NewCentralFresh(t: Tables, a: Address, started: bool)
    requires FreshGenerations(t)
    ensures FreshGenerations(Connect(t, a, started).1)
  {
  }

  lemma LostFresh(t: Tables, n: nat, peerIds: map<Endpoint, PeerId>, peerId: Option<PeerId>, a: Address)
    requires FreshGenerations(t)
    ensures FreshGenerations(Ended(t, n))
    ensures var gone := Ended(t, n).(peerIds := peerIds);
            FreshGenerations(ReleaseDeferred(gone, peerId, a)) && FreshGenerations(ReleaseDeferred(ReleaseDeferred(gone, peerId, a), None, a))
  {
    FewerFresh(t, Ended(t, n));
    var gone := Ended(t, n).(peerIds := peerIds);
    ReleaseFewer(gone, set b | b in gone.central.parked && Releases(gone, peerId, a, b));
    var released := ReleaseDeferred(gone, peerId, a);
    ReleaseFewer(released, set b | b in released.central.parked && Releases(released, None, a, b));
  }

  lemma ReleaseDeferredFresh(t: Tables, peerId: Option<PeerId>, a: Address)
    requires FreshGenerations(t)
    ensures FreshGenerations(ReleaseDeferred(t, peerId, a))
  {
    ReleaseFewer(t, set b | b in t.central.parked && Releases(t, peerId, a, b));
  }

  lemma DropsFresh(t: Tables, a: Address)
    requires FreshGenerations(t)
    ensures FreshGenerations(ServerLost(t, a))
  {
    var uncounted := t.(counts := t.counts - {a});
    if a in t.server.endpointByAddress {
      var n := t.server.endpointByAddress[a];
      LostFresh(uncounted, n, t.peerIds - {Server(n)}, Get(t.peerIds, Server(n)), a);
    } else {
      ReleaseDeferredFresh(uncounted, None, a);
      ReleaseDeferredFresh(ReleaseDeferred(uncounted, None, a), None, a);
    }
  }

  lemma SubmitServerFresh(t: Tables, n: nat, fragment: seq<Byte>, platform: bool)
    requires FreshGenerations(t)
    ensures FreshGenerations(SubmitToServer(t, n, fragment, platform).1)
  {
    if n in t.server.peers {
      LostFresh(t.(counts := t.counts - {t.server.peers[n]}), n, t.peerIds - {Server(n)}, Get(t.peerIds, Server(n)), t.server.peers[n]);
    }
  }

  lemma SubmitFresh(t: Tables, e: Endpoint, fragment: seq<Byte>, notify: bool, platform: bool)
    requires FreshGenerations(t)
    ensures FreshGenerations(Submit(t, e, fragment, notify, platform).1)
  {
    match e
    case Server(n) => SubmitServerFresh(t, n, fragment, platform);
    case Central(a) =>
      if a in t.central.clients { ClientFresh(t, a, t.central.clients[a].(writeInFlight := true)); }
  }

  lemma CloseFresh(t: Tables, e: Endpoint, requested: Option<nat>, preserve: bool)
    requires FreshGenerations(t)
    ensures FreshGenerations(Close(t, e, requested, preserve))
  {
    match e
    case Server(n) => FewerFresh(t, t.(server := Without(t.server, n), peerIds := t.peerIds - {e}));
    case Central(a) => ReleaseFewer(t, {a});
  }

  // Generations do not depend on queues, parking, events or identities.
  lemma SameFresh(t: Tables, t': Tables)
    requires FreshGenerations(t) && t'.nextGeneration == t.nextGeneration && t'.server.generations == t.server.generations
    requires t'.central.(parked := t.central.parked) == t.central
    ensures FreshGenerations(t')
  {
  }

  lemma SentFresh(t: Tables, a: Address, success: bool, platform: bool)
    requires FreshGenerations(t)
    ensures FreshGenerations(NotificationSent(t, a, success, platform))
  {
    if a in t.server.endpointByAddress && t.server.endpointByAddress[a] in t.server.queues {
      var n := t.server.endpointByAddress[a];
      var q := N.Acknowledged(NotifierOf(t.server, n), success, platform);
      if q.known {
        SameFresh(t, NotificationSent(t, a, success, platform));
      } else {
        SameFresh(t, t.(counts := t.counts - {a}));
        FewerFresh(t.(counts := t.counts - {a}), Ended(t.(counts := t.counts - {a}), n));
      }
    }
  }

  lemma CallbackFresh(t: Tables, s: Step)
    requires FreshGenerations(t)
    requires s.ClientState? || s.Discovers? || s.DescriptorDone? || s.WriteDone? || s.Notifies?
    ensures FreshGenerations(Next(t, s))
  {
    match s
    case ClientState(a, gatt, ok, proceeds) => ClientStateFresh(t, a, gatt, ok, proceeds);
    case Discovers(a, gatt, found, subscribes) => if a in t.central.handles { DiscoversFresh(t, a, gatt, found, subscribes); }
    case DescriptorDone(a, gatt, ok) => DescriptorFresh(t, a, gatt, ok);
    case WriteDone(a, gatt, ok) => WriteDoneFresh(t, a, gatt, ok);
    case Notifies(a, gatt) => SameFresh(t, CharacteristicChanged(t, a, gatt));
  }

  lemma NextFresh(t: Tables, s: Step)
    requires FreshGenerations(t)
    ensures FreshGenerations(Next(t, s))
  {
    match s
    case ServerConnects(a) => NewServerFresh(t, a);
    case ServerDrops(a) => DropsFresh(t, a);
    case Writes(a) => SameFresh(t, FragmentWritten(t, a));
    case Subscribes(a) => SameFresh(t, Subscribed(t, a));
    case Acknowledges(a, success, platform) => SentFresh(t, a, success, platform);
    case Submits(e, fragment, notify, platform) => SubmitFresh(t, e, fragment, notify, platform);
    case Closes(e, requested, preserve) => CloseFresh(t, e, requested, preserve);
    case ReleasesParked(peerId, a) => ReleaseDeferredFresh(t, peerId, a);
    case Associates(e, peerId) => SameFresh(t, t.(peerIds := t.peerIds[e := peerId]));
    case Connects(a, started) => NewCentralFresh(t, a, started);
    case TurnsOff(order) =>
    case Stops =>
    case _ => CallbackFresh(t, s);
  }

  // ---------- every run ----------

  lemma {:induction false} RunKeeps(steps: seq<Step>)
    ensures Links(Run(steps)) && FreshGenerations(Run(steps))
  {
    if steps == [] {
      assert forall n: nat :: Own([], n) == [];
    } else {
      RunKeeps(steps[..|steps| - 1]);
      NextKeepsLinks(Run(steps[..|steps| - 1]), steps[|steps| - 1]);
      NextFresh(Run(steps[..|steps| - 1]), steps[|steps| - 1]);
    }
  }

  // In every run, for every server endpoint: it has an address exactly while it has a
  // generation, and that address names it back; it is marked in flight exactly while its
  // queue is not empty, at most 64 fragments wait, and the fragments handed to the
  // platform are the first ones accepted, in order.
  lemma TablesAgree(steps: seq<Step>, n: nat, a: Address)
    ensures var s := Run(steps).server;
            && (n in s.peers <==> n in s.generations)
            && (n in s.peers && s.peers[n] == a <==> a in s.endpointByAddress && s.endpointByAddress[a] == n)
            && (n in s.ready ==> n in s.peers)
            && (n in s.inFlight <==> n in s.queues) && (n in s.queues ==> n in s.peers && 0 < |s.queues[n]| <= 64)
            && (n in s.handed ==> n in s.taken && s.handed[n] <= s.taken[n])
            && (n in s.queues ==> n in s.taken && n in s.handed && s.taken[n] == s.handed[n] + s.queues[n][1..])
  {
    RunKeeps(steps);
    assert LinkOk(Run(steps), n) && AddressOk(Run(steps), a);
  }

  // Every server endpoint's trace has at most one connected and at most one disconnected
  // event, and nothing after the latter; an endpoint that left the tables never returns.
  lemma TraceWellFormed(steps: seq<Step>, n: nat)
    ensures WellFormed(Own(Run(steps).trace, n))
    ensures n in Run(steps).server.peers ==> !Has(Own(Run(steps).trace, n), false)
  {
    RunKeeps(steps);
    assert TraceOk(Run(steps), n);
  }

  lemma {:induction false} NeverReused(steps: seq<Step>, more: seq<Step>, n: nat)
    requires n < Run(steps).server.next && n !in Run(steps).server.peers
    ensures n !in Run(steps + more).server.peers && Run(steps + more).server.next >= Run(steps).server.next
  {
    if more == [] {
      assert steps + more == steps;
    } else {
      var front := more[..|more| - 1];
      NeverReused(steps, front, n);
      RunSnoc(steps + front, more[|more| - 1]);
      assert steps + more == (steps + front) + [more[|more| - 1]];
      NextNeverReuses(Run(steps + front), more[|more| - 1], n);
    }
  }

  lemma RunSnoc(steps: seq<Step>, s: Step)
    ensures Run(steps + [s]) == Next(Run(steps), s)
  {
    assert (steps + [s])[..|steps|] == steps;
  }

  // No step brings a server endpoint back, and none but a new connection adds one.
  ghost predicate ServerForward(s: Servers, s': Servers) {
    && s'.next >= s.next
    && (forall n :: n in s'.peers && n < s.next ==> n in s.peers)
  }

  lemma SubmitForward(t: Tables, n: nat, fragment: seq<Byte>, platform: bool)
    ensures ServerForward(t.server, SubmitToServer(t, n, fragment, platform).1.server)
  {
  }

  lemma LostForward(t: Tables, a: Address)
    ensures ServerForward(t.server, ServerLost(t, a).server)
  {
  }

  lemma SentForward(t: Tables, a: Address, success: bool, platform: bool)
    ensures ServerForward(t.server, NotificationSent(t, a, success, platform).server)
  {
  }

  lemma CloseForward(t: Tables, e: Endpoint, requested: Option<nat>, preserve: bool)
    ensures ServerForward(t.server, Close(t, e, requested, preserve).server)
  {
  }

  lemma NextNeverReuses(t: Tables, s: Step, n: nat)
    requires n < t.server.next && n !in t.server.peers
    ensures n !in Next(t, s).server.peers && Next(t, s).server.next >= t.server.next
  {
    match s
    case ServerConnects(a) =>
    case ServerDrops(a) => LostForward(t, a);
    case Writes(a) =>
    case Subscribes(a) =>
    case Acknowledges(a, success, platform) => SentForward(t, a, success, platform);
    case Submits(e, fragment, notify, platform) => if e.Server? { SubmitForward(t, e.n, fragment, platform); }
    case Closes(e, requested, preserve) => CloseForward(t, e, requested, preserve);
    case ReleasesParked(peerId, a) =>
    case Associates(e, peerId) =>
    case Connects(a, started) =>
    case ClientState(a, gatt, ok, proceeds) => ClientStateMove(t, a, gatt, ok, proceeds);
    case Discovers(a, gatt, found, subscribes) => DiscoversMove(t, a, gatt, found, subscribes);
    case DescriptorDone(a, gatt, ok) => DescriptorMove(t, a, gatt, ok);
    case WriteDone(a, gatt, ok) => WriteDoneMove(t, a, gatt, ok);
    case Notifies(a, gatt) =>
    case TurnsOff(order) =>
    case Stops =>
  }

  // ---------- closing with a generation ----------

  // A close that carries an old generation changes nothing at all; one that carries the
  // current generation ends that endpoint and no other.
  lemma StaleCloseIsIgnored(steps: seq<Step>, e: Endpoint, g: nat, preserve: bool, other: nat)
    ensures var t := Run(steps);
            var t' := Close(t, e, Some(g), preserve);
            && (CurrentGeneration(t, e) != Some(g) ==> t' == t)
            && t'.trace == t.trace
            && (e != Server(other) ==>
                  (other in t'.server.peers <==> other in t.server.peers)
                  && (other in t'.server.generations <==> other in t.server.generations))
  {
    RunKeeps(steps);
    var t := Run(steps);
    if e.Central? { CloseCentralSame(t, e.address, preserve); }
  }

  // No two live links share a generation, whichever side they are on, and every later
  // link gets a larger one; so a generation names one physical link for ever.
  lemma GenerationsAreFresh(steps: seq<Step>, s: Step, e: Endpoint, other: Endpoint)
    ensures var t := Run(steps);
            && (e != other && CurrentGeneration(t, e).Some? ==> CurrentGeneration(t, e) != CurrentGeneration(t, other))
            && (CurrentGeneration(t, e).Some? ==> CurrentGeneration(t, e).value < t.nextGeneration)
            && (CurrentGeneration(Next(t, s), e).Some? && CurrentGeneration(Next(t, s), e) != CurrentGeneration(t, e) ==>
                  CurrentGeneration(Next(t, s), e).value == t.nextGeneration && Next(t, s).nextGeneration == t.nextGeneration + 1)
  {
    RunKeeps(steps);
    NewGeneration(Run(steps), s, e);
  }

  ghost predicate NoNewGeneration(t: Tables, t': Tables) {
    && (forall n :: n in t'.server.generations ==> n in t.server.generations && t'.server.generations[n] == t.server.generations[n])
    && (forall a :: a in t'.central.generations ==> a in t.central.generations && t'.central.generations[a] == t.central.generations[a])
  }

  lemma NewGeneration(t: Tables, s: Step, e: Endpoint)
    requires FreshGenerations(t)
    ensures CurrentGeneration(Next(t, s), e).Some? && CurrentGeneration(Next(t, s), e) != CurrentGeneration(t, e) ==>
              CurrentGeneration(Next(t, s), e).value == t.nextGeneration && Next(t, s).nextGeneration == t.nextGeneration + 1
  {
    if !s.ServerConnects? && !s.Connects? { OthersGiveNone(t, s); }
  }

  lemma DropGivesNone(t: Tables, a: Address)
    ensures NoNewGeneration(t, ServerLost(t, a))
  {
  }

  lemma SentGivesNone(t: Tables, a: Address, success: bool, platform: bool)
    ensures NoNewGeneration(t, NotificationSent(t, a, success, platform))
  {
  }

  lemma SubmitGivesNone(t: Tables, e: Endpoint, fragment: seq<Byte>, notify: bool, platform: bool)
    ensures NoNewGeneration(t, Submit(t, e, fragment, notify, platform).1)
  {
    if e.Server? { SubmitServerGivesNone(t, e.n, fragment, platform); }
  }

  lemma SubmitServerGivesNone(t: Tables, n: nat, fragment: seq<Byte>, platform: bool)
    ensures NoNewGeneration(t, SubmitToServer(t, n, fragment, platform).1)
  {
  }

  lemma CloseGivesNone(t: Tables, e: Endpoint, requested: Option<nat>, preserve: bool)
    ensures NoNewGeneration(t, Close(t, e, requested, preserve))
  {
  }

  lemma ClientStateGivesNone(t: Tables, a: Address, gatt: nat, ok: bool, proceeds: bool)
    ensures NoNewGeneration(t, ClientStateChanged(t, a, gatt, ok, proceeds))
  {
  }

  lemma DiscoversGivesNone(t: Tables, a: Address, gatt: nat, found: bool, subscribes: bool)
    ensures NoNewGeneration(t, ServicesDiscovered(t, a, gatt, found, subscribes))
  {
  }

  lemma DescriptorGivesNone(t: Tables, a: Address, gatt: nat, ok: bool)
    ensures NoNewGeneration(t, DescriptorWritten(t, a, gatt, ok))
  {
  }

  lemma WriteDoneGivesNone(t: Tables, a: Address, gatt: nat, ok: bool)
    ensures NoNewGeneration(t, CharacteristicWritten(t, a, gatt, ok))
  {
  }

  lemma OthersGiveNone(t: Tables, s: Step)
    requires !s.ServerConnects? && !s.Connects?
    ensures NoNewGeneration(t, Next(t, s))
  {
    match s
    case ServerDrops(a) => DropGivesNone(t, a);
    case Acknowledges(a, success, platform) => SentGivesNone(t, a, success, platform);
    case Submits(e, fragment, notify, platform) => SubmitGivesNone(t, e, fragment, notify, platform);
    case Closes(e, requested, preserve) => CloseGivesNone(t, e, requested, preserve);
    case ClientState(a, gatt, ok, proceeds) => ClientStateGivesNone(t, a, gatt, ok, proceeds);
    case Discovers(a, gatt, found, subscribes) => DiscoversGivesNone(t, a, gatt, found, subscribes);
    case DescriptorDone(a, gatt, ok) => DescriptorGivesNone(t, a, gatt, ok);
    case WriteDone(a, gatt, ok) => WriteDoneGivesNone(t, a, gatt, ok);
    case _ => QuietGivesNone(t, s);
  }

  lemma QuietGivesNone(t: Tables, s: Step)
    requires s.Writes? || s.Subscribes? || s.ReleasesParked? || s.Associates? || s.Notifies? || s.TurnsOff? || s.Stops?
    ensures NoNewGeneration(t, Next(t, s))
  {
  }

  // ---------- no lost wake-up ----------

  // A notification or a client write whose completion is still to come.
  predicate Outstanding(t: Tables, e: Endpoint) {
    match e
    case Server(n) => n in t.server.inFlight
    case Central(a) => a in t.central.clients && t.central.clients[a].writeInFlight
  }

  // Exactly one more event, which tells the sender to go on or that the link is over.
  ghost predicate Wakes(t: Tables, t': Tables, e: Endpoint) {
    |t'.trace| == |t.trace| + 1 && t'.trace[..|t.trace|] == t.trace
    && t'.trace[|t.trace|].endpoint == e && (t'.trace[|t.trace|].Writable? || t'.trace[|t.trace|].Disconnected?)
  }

  // A submission is refused without anything outstanding exactly when the platform itself
  // turns down a central write on an idle link; it leaves the plugin as it was, so no
  // completion is on its way that could wake the sender.
  lemma RefusedIdleIff(steps: seq<Step>, e: Endpoint, fragment: seq<Byte>, notify: bool, platform: bool)
    ensures var t := Run(steps);
            Submit(t, e, fragment, notify, platform).0 == B.TemporarilyUnavailable && !Outstanding(t, e)
            <==> e.Central? && e.address in t.central.clients && !notify && !platform && !Outstanding(t, e)
    ensures var (t, after) := (Run(steps), Submit(Run(steps), e, fragment, notify, platform));
            after.0 == B.TemporarilyUnavailable && !Outstanding(t, e) ==> after.1 == t && !Outstanding(after.1, e)
  {
    RunKeeps(steps);
    var t := Run(steps);
    if e.Server? {
      assert LinkOk(t, e.n);
      if e.n in t.server.peers { N.SubmitKeeps(NotifierOf(t.server, e.n), fragment, platform); }
    }
  }

  // Whatever is outstanding wakes the sender when it completes, however it completes.
  lemma OutstandingWakes(steps: seq<Step>, e: Endpoint, ok: bool, platform: bool)
    ensures var t := Run(steps);
            Outstanding(t, e) ==>
              match e
              case Server(n) => n in t.server.peers && Wakes(t, NotificationSent(t, t.server.peers[n], ok, platform), e)
              case Central(a) =>
                a in t.central.handles && (a in t.central.parked || Wakes(t, CharacteristicWritten(t, a, t.central.handles[a], ok), e))
  {
    RunKeeps(steps);
    var t := Run(steps);
    if e.Server? { assert LinkOk(t, e.n); }
  }
}
