/**
 What each callback and call of the Android plugin brings about: which endpoints and
 handles exist afterwards, what is handed to the platform, and which events are emitted.
 */
module AndroidOutcomes {
  import opened Types
  import B = GattBackend
  import N = NotificationQueue
  import opened AndroidLinks
  import opened AndroidRuns

  // A handle parked under this peer's identity, or, without an identity, the handle parked
  // for this very address.
  predicate Freed(t: Tables, peer: Option<PeerId>, a: Address, c: Address) {
    && c in t.central.parked
    && (peer.Some? ==> t.central.parked[c] == peer)
    && (peer.None? ==> c == a && c in t.central.handles)
  }

  // Exactly the handles that the condition names are released, and nothing is said.
  lemma ReleaseDecided(t: Tables, peer: Option<PeerId>, a: Address)
    ensures var t' := ReleaseDeferred(t, peer, a);
            && t'.server == t.server && t'.trace == t.trace && t'.counts == t.counts && t'.nextGeneration == t.nextGeneration
            && (forall c :: c in t'.central.handles <==> c in t.central.handles && !Freed(t, peer, a, c))
            && (forall c :: c in t'.central.parked <==> c in t.central.parked && !Freed(t, peer, a, c))
            && (forall c :: c in t'.central.clients <==> c in t.central.clients && !Freed(t, peer, a, c))
            && (forall c :: c in t'.central.handles ==> t'.central.handles[c] == t.central.handles[c])
  {
  }

  // ---------- server links ----------

  // The first connection of an address makes an endpoint under the next name and
  // generation; a further one of a connected address is only counted; neither is reported.
  lemma ConnectionDecided(t: Tables, a: Address)
    ensures var (t', s, s') := (ServerConnected(t, a), t.server, ServerConnected(t, a).server);
            && t'.trace == t.trace && t'.central == t.central && a in t'.counts
            && (a in s.endpointByAddress ==> s' == s && t'.counts[a] == (if a in t.counts then t.counts[a] else 1) + 1)
            && (a !in s.endpointByAddress ==>
                  && s'.endpointByAddress == s.endpointByAddress[a := s.next] && s'.peers == s.peers[s.next := a]
                  && s'.generations == s.generations[s.next := t.nextGeneration] && s'.ready == s.ready
                  && s'.next == s.next + 1 && t'.nextGeneration == t.nextGeneration + 1 && t'.counts[a] == 1)
  {
  }

  // The endpoint is in no table any more, and the last event is its farewell.
  ghost predicate Farewell(t: Tables, t': Tables, n: nat) {
    && n !in t'.server.peers && n !in t'.server.generations && n !in t'.server.ready && n !in t'.server.queues && n !in t'.server.inFlight
    && t'.trace == t.trace + [Disconnected(Server(n), Get(t.server.generations, n))]
    && (forall m :: m != n ==> (m in t'.server.peers <==> m in t.server.peers))
  }

  // A lost connection ends the endpoint only when it was the last one counted; then the
  // endpoint says farewell, and the handles parked for its peer or its address go.
  lemma LossDecided(t: Tables, a: Address)
    requires Links(t)
    ensures var (t', count) := (ServerLost(t, a), if a in t.counts then t.counts[a] else 1);
            && (count > 1 ==> t' == t.(counts := t.counts[a := count - 1]))
            && (count <= 1 && a in t.server.endpointByAddress ==>
                  var n := t.server.endpointByAddress[a];
                  && Farewell(t, t', n) && a !in t'.server.endpointByAddress && a !in t'.counts && Server(n) !in t'.peerIds
                  && (forall c :: Freed(t, None, a, c) ==> c !in t'.central.handles)
                  && (Server(n) in t.peerIds ==> forall c :: Freed(t, Some(t.peerIds[Server(n)]), a, c) ==> c !in t'.central.handles))
            && (count <= 1 && a !in t.server.endpointByAddress ==>
                  t'.trace == t.trace && t'.server == t.server && forall c :: Freed(t, None, a, c) ==> c !in t'.central.handles)
  {
    assert AddressOk(t, a);
  }

  // A write is delivered under the endpoint of its address; a subscription reports the
  // endpoint once.
  lemma ServerTrafficDecided(t: Tables, a: Address)
    ensures var known := a in t.server.endpointByAddress;
            && (!known ==> FragmentWritten(t, a) == t && Subscribed(t, a) == t)
            && (known ==>
                  var n := t.server.endpointByAddress[a];
                  && FragmentWritten(t, a) == t.(trace := t.trace + [FragmentReceived(Server(n), Get(t.server.generations, n))])
                  && (n in t.server.ready ==> Subscribed(t, a) == t)
                  && (n !in t.server.ready ==>
                        Subscribed(t, a) == t.(server := t.server.(ready := t.server.ready + {n}),
                                               trace := t.trace + [Connected(Server(n), Get(t.server.generations, n))])))
  {
  }

  // A completed notification: the queue moves on and the sender is woken, or, when it
  // failed or the platform refuses the next one, the endpoint says farewell.
  lemma CompletionDecided(t: Tables, a: Address, success: bool, platform: bool)
    requires Links(t)
    ensures var (t', s) := (NotificationSent(t, a, success, platform), t.server);
            var queued := a in s.endpointByAddress && s.endpointByAddress[a] in s.queues;
            && (!queued ==> t' == t)
            && (queued ==>
                  var (n, queue) := (s.endpointByAddress[a], s.queues[s.endpointByAddress[a]]);
                  var goesOn := success && (|queue| > 1 ==> platform);
                  && (goesOn ==>
                        && t'.trace == t.trace + [Writable(Server(n), Get(s.generations, n))] && n in t'.server.peers
                        && (n in t'.server.inFlight <==> |queue| > 1)
                        && (|queue| == 1 ==> n !in t'.server.queues)
                        && (|queue| > 1 ==> n in t'.server.queues && t'.server.queues[n] == queue[1..]))
                  && (!goesOn ==> Farewell(t, t', n) && a !in t'.counts))
  {
    assert AddressOk(t, a);
    if a in t.server.endpointByAddress {
      var n := t.server.endpointByAddress[a];
      assert LinkOk(t, n);
      N.AcknowledgedKeeps(NotifierOf(t.server, n), success, platform);
    }
  }

  // A fragment for a server endpoint: unknown endpoints fail, a full queue refuses, an idle
  // endpoint hands it to the platform at once, and a busy one queues it; when the platform
  // refuses an idle endpoint says farewell.
  lemma NotificationDecided(t: Tables, n: nat, fragment: seq<Byte>, platform: bool)
    requires Links(t)
    ensures var ((r, t'), s) := (SubmitToServer(t, n, fragment, platform), t.server);
            var (known, idle) := (n in s.peers, n !in s.inFlight);
            var queue := if n in s.queues then s.queues[n] else [];
            && (r == B.TerminalFailure <==> !known || (idle && !platform))
            && (r == B.TemporarilyUnavailable <==> known && |queue| >= 64)
            && (r == B.TemporarilyUnavailable || !known ==> t' == t)
            && (r == B.Submitted ==>
                  && t'.trace == t.trace && n in t'.server.inFlight && n in t'.server.queues && t'.server.queues[n] == queue + [fragment]
                  && n in t'.server.handed && n in s.handed && t'.server.handed[n] == (if idle then s.handed[n] + [fragment] else s.handed[n]))
            && (known && idle && !platform ==> Farewell(t, t', n) && s.peers[n] !in t'.counts && Server(n) !in t'.peerIds)
  {
    assert LinkOk(t, n);
    if n in t.server.peers { N.SubmitKeeps(NotifierOf(t.server, n), fragment, platform); }
  }

  // ---------- central links ----------

  // A connection is attempted only to an address that has no link of either side; it takes
  // the next generation, whether it starts or not.
  lemma AttemptDecided(t: Tables, a: Address, started: bool)
    ensures var (r, t') := Connect(t, a, started);
            var busy := a in t.server.endpointByAddress || a in t.central.handles || a in t.central.clients;
            && (r == Err(InvalidState) <==> busy) && (r == Err(TransportClosed) <==> !busy && !started)
            && (busy ==> t' == t)
            && (!busy ==> t'.nextGeneration == t.nextGeneration + 1 && t'.trace == t.trace && t'.server == t.server)
            && (!busy && !started ==> t'.central == t.central)
            && (!busy && started ==>
                  && r == Ok(t.nextGeneration)
                  && t'.central == t.central.(handles := t.central.handles[a := t.nextGeneration],
                                              generations := t.central.generations[a := t.nextGeneration]))
  {
  }

  // The link of the address is gone from every table.
  ghost predicate Dropped(t: Tables, t': Tables, a: Address) {
    && t'.central.handles == t.central.handles - {a} && t'.central.generations == t.central.generations - {a}
    && t'.central.clients == t.central.clients - {a} && t'.server == t.server
  }

  // A callback of a replaced connection changes nothing, and one of a parked link says
  // nothing; the end of a current link is reported with its generation.
  lemma LinkStateDecided(t: Tables, a: Address, gatt: nat, ok: bool, proceeds: bool)
    requires FreshGenerations(t) && a in t.central.handles
    ensures var t' := ClientStateChanged(t, a, gatt, ok, proceeds);
            var (current, parked) := (t.central.handles[a] == gatt, a in t.central.parked);
            && (!current || (ok && (parked || proceeds)) ==> t' == t)
            && (current && !ok && parked ==> Dropped(t, t', a) && a !in t'.central.parked && t'.trace == t.trace)
            && (current && !parked && (!ok || !proceeds) ==>
                  Dropped(t, t', a) && t'.trace == t.trace + [Disconnected(Central(a), Some(gatt))])
  {
  }

  // The plugin's own handle for the address, not parked.
  predicate Current(t: Tables, a: Address, gatt: nat) { a in t.central.handles && t.central.handles[a] == gatt && a !in t.central.parked }

  // The link ended, and was reported with its generation.
  ghost predicate EndReported(t: Tables, t': Tables, a: Address, gatt: nat) {
    Dropped(t, t', a) && t'.trace == t.trace + [Disconnected(Central(a), Some(gatt))]
  }

  // The services of a current link make a client, and its confirmed subscription reports
  // the link once; any failure ends it.
  lemma DiscoveryDecided(t: Tables, a: Address, gatt: nat, ok: bool, subscribes: bool)
    requires FreshGenerations(t) && Current(t, a, gatt)
    ensures var found := ServicesDiscovered(t, a, gatt, ok, subscribes);
            && (ok && subscribes ==> found.central.clients == t.central.clients[a := Client(gatt, false, false)] && found.trace == t.trace)
            && (!ok || !subscribes ==> EndReported(t, found, a, gatt))
  {
  }

  lemma DescriptorDecided(t: Tables, a: Address, gatt: nat, ok: bool)
    requires FreshGenerations(t) && Current(t, a, gatt)
    ensures var described := DescriptorWritten(t, a, gatt, ok);
            && (!ok ==> EndReported(t, described, a, gatt))
            && (ok && a in t.central.clients ==>
                  && described.trace == (if t.central.clients[a].connectedEmitted then t.trace else t.trace + [Connected(Central(a), Some(gatt))])
                  && described.central.clients == t.central.clients[a := t.central.clients[a].(connectedEmitted := true)])
  {
    if a in t.central.clients && t.central.clients[a].connectedEmitted {
      assert t.central.clients[a := t.central.clients[a].(connectedEmitted := true)] == t.central.clients;
    }
  }

  // A completed write frees the link and wakes the sender, a failed one ends the link, and
  // a value is delivered.
  lemma LinkTrafficDecided(t: Tables, a: Address, gatt: nat, ok: bool)
    requires FreshGenerations(t) && Current(t, a, gatt)
    ensures var written := CharacteristicWritten(t, a, gatt, ok);
            && (!ok ==> EndReported(t, written, a, gatt))
            && (ok ==> written.trace == t.trace + [Writable(Central(a), Some(gatt))])
            && (ok && a in t.central.clients ==>
                  written.central.clients == t.central.clients[a := t.central.clients[a].(writeInFlight := false)])
            && CharacteristicChanged(t, a, gatt) == t.(trace := t.trace + [FragmentReceived(Central(a), Some(gatt))])
  {
  }

  // Callbacks of a replaced or a parked link are ignored.
  lemma StaleTrafficIgnored(t: Tables, a: Address, gatt: nat, ok: bool, found: bool)
    requires a in t.central.parked || (a in t.central.handles && t.central.handles[a] != gatt)
    ensures ServicesDiscovered(t, a, gatt, ok, found) == t && DescriptorWritten(t, a, gatt, ok) == t
    ensures CharacteristicWritten(t, a, gatt, ok) == t && CharacteristicChanged(t, a, gatt) == t
  {
  }

  // A fragment for a central endpoint goes out as a write when none is in flight.
  lemma WriteDecided(t: Tables, a: Address, notify: bool, platform: bool)
    ensures var (r, t') := SubmitToClient(t, a, notify, platform);
            var usable := a in t.central.clients && !notify;
            && (r == B.TerminalFailure <==> !usable)
            && (r == B.Submitted <==> usable && !t.central.clients[a].writeInFlight && platform)
            && (r != B.Submitted ==> t' == t)
            && (r == B.Submitted ==>
                  t' == t.(central := t.central.(clients := t.central.clients[a := t.central.clients[a].(writeInFlight := true)])))
  {
  }

  // ---------- closing ----------

  // A close with another generation than the current one changes nothing. A server endpoint
  // leaves the tables; a central link is parked, with its peer's identity, when asked for
  // or when its address has a server link, and released otherwise. Nothing is reported.
  lemma CloseDecided(t: Tables, e: Endpoint, requested: Option<nat>, preserve: bool)
    requires FreshGenerations(t)
    ensures var t' := Close(t, e, requested, preserve);
            var current := match e
                           case Central(a) => if a in t.central.generations then Some(t.central.generations[a]) else None
                           case Server(n) => if n in t.server.generations then Some(t.server.generations[n]) else None;
            && t'.trace == t.trace
            && (requested.Some? && requested != current ==> t' == t)
            && (requested.None? || requested == current ==>
                  match e
                  case Server(n) =>
                    n !in t'.server.peers && n !in t'.server.generations && n !in t'.server.queues && e !in t'.peerIds && t'.central == t.central
                  case Central(a) =>
                    var parks := (preserve || a in t.server.endpointByAddress) && a in t.central.handles;
                    && t'.server == t.server
                    && (parks ==>
                          && t'.central == t.central.(parked := t'.central.parked) && t'.central.parked.Keys == t.central.parked.Keys + {a}
                          && (e in t.peerIds ==> t'.central.parked[a] == Some(t.peerIds[e]))
                          && (forall c :: c in t.central.parked && c != a ==> t'.central.parked[c] == t.central.parked[c]))
                    && (!parks ==> Dropped(t, t', a) && t'.central.parked == t.central.parked - {a} && e !in t'.peerIds))
  {
  }

  // Bluetooth turning off: one farewell with its generation for each live endpoint, and
  // then no link is left.
  lemma TurningOffDecided(t: Tables, order: seq<Endpoint>)
    ensures var t' := Stopped(EmitAll(t, Farewells(t, order)));
            && t'.server.endpointByAddress == map[] && t'.server.peers == map[] && t'.server.generations == map[]
            && t'.server.queues == map[] && t'.server.inFlight == {} && t'.server.ready == {} && t'.counts == map[]
            && t'.central == Centrals(map[], map[], map[], map[]) && t'.peerIds == map[]
            && t'.server.next == t.server.next && t'.nextGeneration == t.nextGeneration
            && |t'.trace| == |t.trace| + |order| && t'.trace[..|t.trace|] == t.trace
            && forall i :: 0 <= i < |order| ==>
                 t'.trace[|t.trace| + i] == Disconnected(order[i], match order[i]
                                                                   case Central(a) => Get(t.central.generations, a)
                                                                   case Server(n) => Get(t.server.generations, n))
  {
  }
}
