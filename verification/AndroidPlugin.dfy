/**
 The Android plugin's link tables as the object that its callbacks and method calls
 update in place, one field per table.
 */
module AndroidPlugin {
  import opened Types
  import B = GattBackend
  import N = NotificationQueue
  import opened AndroidLinks

  class LocalPeerConnectionsPlugin {
    var endpointByAddress: map<Address, nat>
    var peers: map<nat, Address>
    var counts: map<Address, nat>
    var serverGenerations: map<nat, nat>
    var ready: set<nat>
    var queues: map<nat, seq<seq<Byte>>>
    var inFlight: set<nat>
    var handles: map<Address, nat>
    var handleGenerations: map<Address, nat>
    var clients: map<Address, Client>
    var parked: map<Address, Option<PeerId>>
    var peerIds: map<Endpoint, PeerId>
    var nextEndpoint: nat
    var nextGeneration: nat
    var trace: seq<Event>
    ghost var handed: map<nat, seq<seq<Byte>>>
    ghost var taken: map<nat, seq<seq<Byte>>>

    ghost function Server(): Servers
      reads this
    {
      Servers(endpointByAddress, peers, serverGenerations, ready, queues, inFlight, nextEndpoint, handed, taken)
    }

    ghost function Central(): Centrals
      reads this
    {
      Centrals(handles, handleGenerations, clients, parked)
    }

    ghost function Contents(): Tables
      reads this
    {
      Tables(Server(), counts, Central(), peerIds, nextGeneration, trace)
    }

    constructor ()
      ensures Contents() == EMPTY
    {
      endpointByAddress, peers, counts, serverGenerations, ready, queues, inFlight := map[], map[], map[], map[], {}, map[], {};
      handles, handleGenerations, clients, parked, peerIds := map[], map[], map[], map[], map[];
      nextEndpoint, nextGeneration, trace, handed, taken := 1, 1, [], map[], map[];
    }

    // The server callback for a connection state other than connected is `connected` false.
    method OnServerConnectionStateChange(a: Address, connected: bool)
      modifies this
      ensures Contents() == if connected then ServerConnected(old(Contents()), a) else ServerLost(old(Contents()), a)
    {
      if connected { ServerLinkUp(a); } else { ServerLinkDown(a); }
    }

    method ServerLinkUp(a: Address)
      modifies this
      ensures Contents() == ServerConnected(old(Contents()), a)
    {
      if a in endpointByAddress {
        counts := counts[a := Or(Get(counts, a), 1) + 1];
        return;
      }
      AddServerLink(a, nextGeneration);
      counts, nextGeneration := counts[a := 1], nextGeneration + 1;
    }

    method AddServerLink(a: Address, generation: nat)
      modifies this`endpointByAddress, this`peers, this`serverGenerations, this`nextEndpoint, this`handed, this`taken
      ensures Server() == Joined(old(Server()), a, generation)
    {
      endpointByAddress := endpointByAddress[a := nextEndpoint];
      serverGenerations := serverGenerations[nextEndpoint := generation];
      peers := peers[nextEndpoint := a];
      handed, taken := handed[nextEndpoint := []], taken[nextEndpoint := []];
      nextEndpoint := nextEndpoint + 1;
    }

    method ServerLinkDown(a: Address)
      modifies this
      ensures Contents() == ServerLost(old(Contents()), a)
    {
      var count := if a in counts then counts[a] else 1;
      if count > 1 {
        counts := counts[a := count - 1];
        return;
      }
      counts := counts - {a};
      if a in endpointByAddress {
        var endpoint := endpointByAddress[a];
        var peerId := Get(peerIds, Endpoint.Server(endpoint));
        EndServerLink(endpoint);
        peerIds := peerIds - {Endpoint.Server(endpoint)};
        ReleaseDeferredCentralHandles(peerId, a);
      } else {
        ReleaseDeferredCentralHandles(None, a);
      }
      ReleaseDeferredCentralHandles(None, a);
    }

    // Removes a server endpoint from every table and reports its end.
    method EndServerLink(n: nat)
      modifies this
      ensures Contents() == Ended(old(Contents()), n)
    {
      var generation := Get(serverGenerations, n);
      RemoveServerLink(n);
      trace := trace + [Disconnected(Endpoint.Server(n), generation)];
    }

    method RemoveServerLink(n: nat)
      modifies this`endpointByAddress, this`peers, this`ready, this`queues, this`inFlight, this`serverGenerations
      ensures Server() == Without(old(Server()), n)
    {
      if n in peers && Get(endpointByAddress, peers[n]) == Some(n) { endpointByAddress := endpointByAddress - {peers[n]}; }
      peers := peers - {n};
      ready := ready - {n};
      queues := queues - {n};
      inFlight := inFlight - {n};
      serverGenerations := serverGenerations - {n};
    }

    // Visits the parked handles that match and lets each go.
    method ReleaseDeferredCentralHandles(peerId: Option<PeerId>, a: Address)
      modifies this`parked, this`peerIds, this`clients, this`handles, this`handleGenerations
      ensures Contents() == ReleaseDeferred(old(Contents()), peerId, a)
    {
      ghost var was := Contents();
      var deferred := set c | c in parked && (if peerId.Some? then parked[c] == peerId else c == a && c in handles);
      assert deferred == set c | c in was.central.parked && Releases(was, peerId, a, c);
      ReleaseEach(deferred);
    }

    method ReleaseEach(deferred: set<Address>)
      modifies this`parked, this`peerIds, this`clients, this`handles, this`handleGenerations
      ensures Contents() == Released(old(Contents()), deferred)
    {
      ghost var was := Contents();
      var rest := deferred;
      ReleasedNone(was);
      assert deferred - rest == {};
      while rest != {}
        invariant rest <= deferred
        invariant Contents() == Released(was, deferred - rest)
        decreases |rest|
      {
        var c :| c in rest;
        ReleasedOneMore(was, deferred - rest, c);
        assert deferred - rest + {c} == deferred - (rest - {c});
        ReleaseOne(c);
        rest := rest - {c};
      }
      assert deferred - {} == deferred;
    }

    method ReleaseOne(c: Address)
      modifies this`parked, this`peerIds, this`clients, this`handles, this`handleGenerations
      ensures Contents() == Released(old(Contents()), {c})
    {
      ReleasedSingle(Contents(), c);
      parked := parked - {c};
      peerIds := peerIds - {Endpoint.Central(c)};
      clients := clients - {c};
      handles := handles - {c};
      handleGenerations := handleGenerations - {c};
    }

    method OnCharacteristicWriteRequest(a: Address)
      modifies this`trace
      ensures Contents() == FragmentWritten(old(Contents()), a)
    {
      if a !in endpointByAddress { return; }
      var n := endpointByAddress[a];
      trace := trace + [FragmentReceived(Endpoint.Server(n), Get(serverGenerations, n))];
    }

    // A repeated subscription does not announce the endpoint again.
    method OnDescriptorWriteRequest(a: Address)
      modifies this`ready, this`trace
      ensures Contents() == Subscribed(old(Contents()), a)
    {
      if a !in endpointByAddress { return; }
      var n := endpointByAddress[a];
      if n in ready { return; }
      ready := ready + {n};
      trace := trace + [Connected(Endpoint.Server(n), Get(serverGenerations, n))];
    }

    // Hands the head of the queue to the platform unless a notification is in flight.
    method StartNextServerNotification(n: nat, platform: bool) returns (started: bool)
      modifies this`inFlight, this`handed
      ensures var (r, q) := N.StartNext(NotifierOf(old(Server()), n), platform);
              && started == r
              && inFlight == (if q.inFlight then old(inFlight) + {n} else old(inFlight))
              && handed == (if q.inFlight && n !in old(inFlight) then old(handed)[n := q.handed] else old(handed))
    {
      if n in inFlight { return true; }
      if n !in peers { return false; }
      if n !in queues || queues[n] == [] { return true; }
      if !platform { return false; }
      handed := handed[n := (if n in handed then handed[n] else []) + [queues[n][0]]];
      inFlight := inFlight + {n};
      started := true;
    }

    // onNotificationSent. A queue is only ever kept while something is in it.
    method OnNotificationSent(a: Address, success: bool, platform: bool)
      requires forall n :: n in queues ==> queues[n] != []
      modifies this
      ensures Contents() == NotificationSent(old(Contents()), a, success, platform)
    {
      if a !in endpointByAddress || endpointByAddress[a] !in queues { return; }
      var n := endpointByAddress[a];
      ghost var was := Server();
      var alive := AcknowledgeHead(n, success, platform);
      if alive {
        trace := trace + [Writable(Endpoint.Server(n), Get(serverGenerations, n))];
      } else {
        counts := counts - {a};
        EndServerLink(n);
      }
    }

    // The head leaves the queue, and the next one goes out.
    method AcknowledgeHead(n: nat, success: bool, platform: bool) returns (alive: bool)
      requires n in queues && queues[n] != []
      modifies this`queues, this`inFlight, this`handed
      ensures var q := N.Acknowledged(NotifierOf(old(Server()), n), success, platform);
              && alive == q.known
              && (if alive then Server() == WithNotifier(old(Server()), n, q)
                  else Without(Server(), n) == Without(old(Server()), n))
    {
      ghost var was := Server();
      HeadGone(was, n, platform);
      HeadGoneWithout(was, n);
      queues := queues[n := queues[n][1..]];
      inFlight := inFlight - {n};
      if !success { return false; }
      alive := StartNextServerNotification(n, platform);
      if !alive { return; }
      if queues[n] == [] { queues := queues - {n}; }
      handed := was.handed[n := N.Acknowledged(NotifierOf(was, n), true, platform).handed];
    }

    method CloseGattConnection(e: Endpoint, requested: Option<nat>, preserve: bool)
      modifies this
      ensures Contents() == Close(old(Contents()), e, requested, preserve)
    {
      var current := match e case Central(a) => Get(handleGenerations, a) case Server(n) => Get(serverGenerations, n);
      if requested.Some? && current != requested { return; }
      match e {
        case Central(a) => CloseCentralLink(a, preserve);
        case Server(n) =>
          peerIds := peerIds - {e};
          RemoveServerLink(n);
      }
    }

    // A central handle that shares its device with a server link is parked, not closed.
    method CloseCentralLink(a: Address, preserve: bool)
      modifies this
      ensures Contents() == CloseCentral(old(Contents()), a, preserve)
    {
      if (preserve || a in endpointByAddress) && (a in handles || a in clients) {
        var peer := if Endpoint.Central(a) in peerIds then Some(peerIds[Endpoint.Central(a)])
                    else if a in parked then parked[a] else None;
        parked := parked[a := peer];
        return;
      }
      ReleaseOne(a);
    }

    method SubmitGattFragment(e: Endpoint, fragment: seq<Byte>, notify: bool, platform: bool) returns (r: B.Submission)
      modifies this
      ensures (r, Contents()) == Submit(old(Contents()), e, fragment, notify, platform)
    {
      match e {
        case Central(a) =>
          if a !in clients || notify { return B.TerminalFailure; }
          if clients[a].writeInFlight { return B.TemporarilyUnavailable; }
          if !platform { return B.TemporarilyUnavailable; }
          clients := clients[a := clients[a].(writeInFlight := true)];
          r := B.Submitted;
        case Server(n) =>
          r := SubmitNotification(n, fragment, platform);
      }
    }

    method SubmitNotification(n: nat, fragment: seq<Byte>, platform: bool) returns (r: B.Submission)
      modifies this
      ensures (r, Contents()) == SubmitToServer(old(Contents()), n, fragment, platform)
    {
      if n !in peers { return B.TerminalFailure; }
      var queue := if n in queues then queues[n] else [];
      if |queue| >= N.MAX_SERVER_NOTIFICATION_QUEUE { return B.TemporarilyUnavailable; }
      ghost var was := Server();
      var accepted := Enqueue(n, queue, fragment, platform);
      if !accepted {
        FailServerNotification(n, peers[n]);
        return B.TerminalFailure;
      }
      taken := Taking(was, n, fragment);
      r := B.Submitted;
    }

    // The fragment goes behind the others, and out at once if nothing is in flight; it is
    // taken back when the platform refuses it.
    method Enqueue(n: nat, queue: seq<seq<Byte>>, fragment: seq<Byte>, platform: bool) returns (accepted: bool)
      requires n in peers && queue == (if n in queues then queues[n] else [])
      modifies this`queues, this`inFlight, this`handed
      ensures var (ok, q) := N.StartNext(NotifierOf(old(Server()), n).(queue := queue + [fragment]), platform);
              accepted == ok && (if ok then Server() == WithNotifier(old(Server()), n, q) else Server() == old(Server()))
    {
      ghost var q := N.StartNext(NotifierOf(Server(), n).(queue := queue + [fragment]), platform).1;
      ghost var before := handed;
      var queuesBefore := queues;
      queues := queues[n := queue + [fragment]];
      accepted := StartNextServerNotification(n, platform);
      if !accepted {
        queues := queuesBefore;
      } else {
        handed := before[n := q.handed];
      }
    }

    method FailServerNotification(n: nat, a: Address)
      modifies this
      ensures Contents() == NotificationFailed(old(Contents()), n, a)
    {
      var peerId := Get(peerIds, Endpoint.Server(n));
      counts := counts - {a};
      EndServerLink(n);
      peerIds := peerIds - {Endpoint.Server(n)};
      ReleaseDeferredCentralHandles(peerId, a);
    }

    method ConnectGatt(a: Address, started: bool) returns (r: Result<nat>)
      modifies this
      ensures (r, Contents()) == Connect(old(Contents()), a, started)
    {
      if a in endpointByAddress { return Err(InvalidState); }
      if a in handles || a in clients { return Err(InvalidState); }
      var generation := nextGeneration;
      nextGeneration := nextGeneration + 1;
      if !started { return Err(TransportClosed); }
      handles := handles[a := generation];
      handleGenerations := handleGenerations[a := generation];
      r := Ok(generation);
    }

    method RemoveGattHandle(a: Address, gatt: nat)
      modifies this`handles, this`handleGenerations, this`clients
      ensures Contents() == RemoveHandle(old(Contents()), a, gatt)
    {
      if a in handles && handles[a] == gatt {
        handles := handles - {a};
        handleGenerations := handleGenerations - {a};
      }
      if a in clients && clients[a].gatt == gatt { clients := clients - {a}; }
    }

    method Fail(a: Address, gatt: nat)
      modifies this
      ensures Contents() == FailGatt(old(Contents()), a, gatt)
    {
      var generation := Get(handleGenerations, a);
      RemoveGattHandle(a, gatt);
      trace := trace + [Disconnected(Endpoint.Central(a), generation)];
    }

    method OnClientConnectionStateChange(a: Address, gatt: nat, ok: bool, proceeds: bool)
      modifies this
      ensures Contents() == ClientStateChanged(old(Contents()), a, gatt, ok, proceeds)
    {
      if a in handles && handles[a] != gatt { return; }
      if a in parked {
        if !ok {
          parked := parked - {a};
          RemoveGattHandle(a, gatt);
        }
        return;
      }
      if !ok {
        RemoveGattHandle(a, gatt);
        trace := trace + [Disconnected(Endpoint.Central(a), Some(gatt))];
        return;
      }
      if !proceeds { Fail(a, gatt); }
    }

    method OnServicesDiscovered(a: Address, gatt: nat, found: bool, subscribes: bool)
      modifies this
      ensures Contents() == ServicesDiscovered(old(Contents()), a, gatt, found, subscribes)
    {
      if a in parked { return; }
      if a in handles && handles[a] != gatt { return; }
      if found {
        clients := clients[a := Client(gatt, false, false)];
        if subscribes { return; }
      }
      Fail(a, gatt);
    }

    // One connected event per native link, however often the callback comes.
    method OnDescriptorWrite(a: Address, gatt: nat, ok: bool)
      modifies this
      ensures Contents() == DescriptorWritten(old(Contents()), a, gatt, ok)
    {
      if a in parked { return; }
      if a in handles && handles[a] != gatt { return; }
      if !ok {
        Fail(a, gatt);
        return;
      }
      if a in clients {
        if clients[a].connectedEmitted { return; }
        clients := clients[a := clients[a].(connectedEmitted := true)];
      }
      trace := trace + [Connected(Endpoint.Central(a), Some(gatt))];
    }

    // The adapter goes off: every listed endpoint is reported lost, then everything stops.
    method HandleBluetoothTurningOff(order: seq<Endpoint>)
      modifies this
      ensures Contents() == Stopped(EmitAll(old(Contents()), Farewells(old(Contents()), order)))
    {
      ghost var was := Contents();
      for i := 0 to |order|
        invariant Contents() == was.(trace := was.trace + Farewells(was, order)[..i])
      {
        var e := order[i];
        var generation := match e case Central(a) => Get(handleGenerations, a) case Server(n) => Get(serverGenerations, n);
        assert Farewells(was, order)[..i + 1] == Farewells(was, order)[..i] + [Disconnected(e, generation)];
        trace := trace + [Disconnected(e, generation)];
      }
      assert Farewells(was, order)[..|order|] == Farewells(was, order);
      StopGatt();
    }

    method StopGatt()
      modifies this
      ensures Contents() == Stopped(old(Contents()))
    {
      StopServerLinks();
      counts := map[];
      StopCentralLinks();
      peerIds := map[];
    }

    method StopServerLinks()
      modifies this`endpointByAddress, this`peers, this`serverGenerations, this`ready, this`queues, this`inFlight
      ensures Server() == NoServers(old(Server()))
    {
      endpointByAddress, peers, serverGenerations := map[], map[], map[];
      ready, queues, inFlight := {}, map[], {};
    }

    method StopCentralLinks()
      modifies this`handles, this`handleGenerations, this`clients, this`parked
      ensures Central() == Centrals(map[], map[], map[], map[])
    {
      handles, handleGenerations, clients, parked := map[], map[], map[], map[];
    }

    method OnCharacteristicWrite(a: Address, gatt: nat, ok: bool)
      modifies this
      ensures Contents() == CharacteristicWritten(old(Contents()), a, gatt, ok)
    {
      if a in parked { return; }
      if a in handles && handles[a] != gatt { return; }
      if a in clients { clients := clients[a := clients[a].(writeInFlight := false)]; }
      if ok {
        trace := trace + [Writable(Endpoint.Central(a), Some(gatt))];
      } else {
        Fail(a, gatt);
      }
    }
  }

  // The tables between acknowledging the head and starting the next notification.
  function Headless(s: Servers, n: nat): Servers
    requires n in s.queues && s.queues[n] != []
  {
    s.(queues := s.queues[n := s.queues[n][1..]], inFlight := s.inFlight - {n})
  }

  lemma HeadGone(s: Servers, n: nat, platform: bool)
    requires n in s.queues && s.queues[n] != []
    ensures var mid := Headless(s, n);
            var (ok, next) := N.StartNext(NotifierOf(mid, n), platform);
            var q := N.Acknowledged(NotifierOf(s, n), true, platform);
            && ok == q.known
            && (ok ==> WithNotifier(s, n, q)
                       == mid.(queues := if mid.queues[n] == [] then mid.queues - {n} else mid.queues,
                               inFlight := if next.inFlight then mid.inFlight + {n} else mid.inFlight,
                               handed := s.handed[n := q.handed]))
  {
    var mid := Headless(s, n);
    assert mid.queues - {n} == s.queues - {n};
    assert mid.inFlight + {n} == s.inFlight + {n};
  }

  lemma HeadGoneWithout(s: Servers, n: nat)
    requires n in s.queues && s.queues[n] != []
    ensures Without(Headless(s, n), n) == Without(s, n)
  {
    var mid := Headless(s, n);
    assert mid.queues - {n} == s.queues - {n};
    assert mid.inFlight - {n} == s.inFlight - {n};
  }

  lemma ReleasedSingle(t: Tables, c: Address)
    ensures Released(t, {c})
            == t.(central := Centrals(t.central.handles - {c}, t.central.generations - {c}, t.central.clients - {c}, t.central.parked - {c}),
                  peerIds := t.peerIds - {Endpoint.Central(c)})
  {
    assert (set x | x in {c} :: Endpoint.Central(x)) == {Endpoint.Central(c)};
  }

  lemma ReleasedNone(t: Tables)
    ensures Released(t, {}) == t
  {
    assert (set a: Address | a in {} :: Endpoint.Central(a)) == {};
    assert t.central.handles - {} == t.central.handles && t.central.generations - {} == t.central.generations;
    assert t.central.clients - {} == t.central.clients && t.central.parked - {} == t.central.parked;
    assert t.peerIds - {} == t.peerIds;
  }

  lemma ReleasedOneMore(t: Tables, done: set<Address>, c: Address)
    ensures Released(t, done + {c}) == Released(Released(t, done), {c})
  {
    var now := Released(t, done);
    assert t.central.handles - (done + {c}) == now.central.handles - {c};
    assert t.central.generations - (done + {c}) == now.central.generations - {c};
    assert t.central.clients - (done + {c}) == now.central.clients - {c};
    assert t.central.parked - (done + {c}) == now.central.parked - {c};
    assert (set a | a in done + {c} :: Endpoint.Central(a))
           == (set a | a in done :: Endpoint.Central(a)) + (set a | a in {c} :: Endpoint.Central(a));
    assert t.peerIds - (set a | a in done + {c} :: Endpoint.Central(a)) == now.peerIds - (set a | a in {c} :: Endpoint.Central(a));
  }
}
