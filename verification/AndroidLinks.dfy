/**
 The link tables of the Android plugin: server links with opaque endpoint IDs, central
 links named by their device address, parked duplicates, and the notification queues.
 Every platform callback or method call is one step.
 */
module AndroidLinks {
  import opened Types
  import B = GattBackend
  import N = NotificationQueue

  type Address = nat

  // The n-th server endpoint, or the central endpoint of an address.
  datatype Endpoint = Server(n: nat) | Central(address: Address)

  datatype Event =
    | Connected(endpoint: Endpoint, generation: Option<nat>)
    | Disconnected(endpoint: Endpoint, generation: Option<nat>)
    | FragmentReceived(endpoint: Endpoint, generation: Option<nat>)
    | Writable(endpoint: Endpoint, generation: Option<nat>)

  // A discovered central link; `gatt` names the native object by its generation.
  datatype Client = Client(gatt: nat, writeInFlight: bool, connectedEmitted: bool)

  datatype Servers = Servers(
    endpointByAddress: map<Address, nat>,
    peers: map<nat, Address>,
    generations: map<nat, nat>,
    ready: set<nat>,
    queues: map<nat, seq<seq<Byte>>>,
    inFlight: set<nat>,
    next: nat,
    handed: map<nat, seq<seq<Byte>>>,   // history: fragments the platform took, per endpoint
    taken: map<nat, seq<seq<Byte>>>)    // history: fragments accepted from the sender, per endpoint

  datatype Centrals = Centrals(
    handles: map<Address, nat>,
    generations: map<Address, nat>,
    clients: map<Address, Client>,
    parked: map<Address, Option<PeerId>>)

  datatype Tables = Tables(
    server: Servers,
    counts: map<Address, nat>,
    central: Centrals,
    peerIds: map<Endpoint, PeerId>,
    nextGeneration: nat,
    trace: seq<Event>)                  // history: every event emitted, in order

  const EMPTY := Tables(Servers(map[], map[], map[], {}, map[], {}, 1, map[], map[]), map[],
                        Centrals(map[], map[], map[], map[]), map[], 1, [])

  function Get<K, V>(m: map<K, V>, k: K): Option<V> { if k in m then Some(m[k]) else None }

  function Or(o: Option<nat>, otherwise: nat): nat { if o.Some? then o.value else otherwise }

  function Emit(t: Tables, e: Event): Tables { t.(trace := t.trace + [e]) }

  // ---------- parked central handles ----------

  predicate Releases(t: Tables, peerId: Option<PeerId>, address: Address, candidate: Address) {
    && candidate in t.central.parked
    && if peerId.Some? then t.central.parked[candidate] == peerId else candidate == address && candidate in t.central.handles
  }

  function Released(t: Tables, gone: set<Address>): Tables {
    var c := t.central;
    t.(central := Centrals(c.handles - gone, c.generations - gone, c.clients - gone, c.parked - gone),
       peerIds := t.peerIds - (set a | a in gone :: Central(a)))
  }

  function ReleaseDeferred(t: Tables, peerId: Option<PeerId>, address: Address): Tables {
    Released(t, set a | a in t.central.parked && Releases(t, peerId, address, a))
  }

  // ---------- server links ----------

  function ServerConnected(t: Tables, a: Address): Tables {
    var s := t.server;
    if a in s.endpointByAddress then t.(counts := t.counts[a := Or(Get(t.counts, a), 1) + 1])
    else
      t.(server := Joined(s, a, t.nextGeneration), counts := t.counts[a := 1], nextGeneration := t.nextGeneration + 1)
  }

  // A new endpoint for the address, under the next endpoint ID.
  function Joined(s: Servers, a: Address, generation: nat): Servers {
    s.(endpointByAddress := s.endpointByAddress[a := s.next], peers := s.peers[s.next := a],
       generations := s.generations[s.next := generation], next := s.next + 1,
       handed := s.handed[s.next := []], taken := s.taken[s.next := []])
  }

  // The endpoint leaves every server table.
  function Without(s: Servers, n: nat): Servers {
    s.(endpointByAddress := if n in s.peers && Get(s.endpointByAddress, s.peers[n]) == Some(n)
                            then s.endpointByAddress - {s.peers[n]} else s.endpointByAddress,
       peers := s.peers - {n}, generations := s.generations - {n}, ready := s.ready - {n},
       queues := s.queues - {n}, inFlight := s.inFlight - {n})
  }

  // The end of a server link, and its event.
  function Ended(t: Tables, n: nat): Tables {
    Emit(t.(server := Without(t.server, n)), Disconnected(Server(n), Get(t.server.generations, n)))
  }

  function ServerLost(t: Tables, a: Address): Tables {
    var count := Or(Get(t.counts, a), 1);
    if count > 1 then t.(counts := t.counts[a := count - 1])
    else
      var uncounted := t.(counts := t.counts - {a});
      if a !in t.server.endpointByAddress then ReleaseDeferred(ReleaseDeferred(uncounted, None, a), None, a)
      else
        var n := t.server.endpointByAddress[a];
        ReleaseDeferred(ReleaseDeferred(Ended(uncounted, n).(peerIds := t.peerIds - {Server(n)}), Get(t.peerIds, Server(n)), a),
                        None, a)
  }

  function FragmentWritten(t: Tables, a: Address): Tables {
    if a !in t.server.endpointByAddress then t
    else
      var n := t.server.endpointByAddress[a];
      Emit(t, FragmentReceived(Server(n), Get(t.server.generations, n)))
  }

  function Subscribed(t: Tables, a: Address): Tables {
    if a !in t.server.endpointByAddress || t.server.endpointByAddress[a] in t.server.ready then t
    else
      var n := t.server.endpointByAddress[a];
      Emit(t.(server := t.server.(ready := t.server.ready + {n})), Connected(Server(n), Get(t.server.generations, n)))
  }

  // The endpoint's notifier, as NotificationQueue describes it.
  function NotifierOf(s: Servers, n: nat): N.Notifier {
    N.Notifier(n in s.peers, if n in s.queues then s.queues[n] else [], n in s.inFlight, if n in s.handed then s.handed[n] else [])
  }

  function WithNotifier(s: Servers, n: nat, q: N.Notifier): Servers {
    s.(queues := if q.queue == [] then s.queues - {n} else s.queues[n := q.queue],
       inFlight := if q.inFlight then s.inFlight + {n} else s.inFlight - {n},
       handed := s.handed[n := q.handed])
  }

  function NotificationSent(t: Tables, a: Address, success: bool, platform: bool): Tables {
    if a !in t.server.endpointByAddress || t.server.endpointByAddress[a] !in t.server.queues then t
    else
      var n := t.server.endpointByAddress[a];
      var q := N.Acknowledged(NotifierOf(t.server, n), success, platform);
      if q.known
      then Emit(t.(server := WithNotifier(t.server, n, q)), Writable(Server(n), Get(t.server.generations, n)))
      else Ended(t.(counts := t.counts - {a}), n)
  }

  // A notification the platform refused: the endpoint goes, and so do handles parked on it.
  function NotificationFailed(t: Tables, n: nat, a: Address): Tables {
    ReleaseDeferred(Ended(t.(counts := t.counts - {a}), n).(peerIds := t.peerIds - {Server(n)}), Get(t.peerIds, Server(n)), a)
  }

  // ---------- submitting ----------

  function Taking(s: Servers, n: nat, fragment: seq<Byte>): map<nat, seq<seq<Byte>>> {
    s.taken[n := (if n in s.taken then s.taken[n] else []) + [fragment]]
  }

  function SubmitToServer(t: Tables, n: nat, fragment: seq<Byte>, platform: bool): (B.Submission, Tables) {
    if n !in t.server.peers then (B.TerminalFailure, t)
    else
      var (r, q) := N.Submit(NotifierOf(t.server, n), fragment, platform);
      match r
      case Submitted => (r, t.(server := WithNotifier(t.server, n, q).(taken := Taking(t.server, n, fragment))))
      case TemporarilyUnavailable => (r, t)
      case TerminalFailure => (r, NotificationFailed(t, n, t.server.peers[n]))
  }

  function WithClient(t: Tables, a: Address, c: Client): Tables {
    t.(central := t.central.(clients := t.central.clients[a := c]))
  }

  function SubmitToClient(t: Tables, a: Address, notify: bool, platform: bool): (B.Submission, Tables) {
    if a !in t.central.clients || notify then (B.TerminalFailure, t)
    else if t.central.clients[a].writeInFlight then (B.TemporarilyUnavailable, t)
    else if platform then (B.Submitted, WithClient(t, a, t.central.clients[a].(writeInFlight := true)))
    else (B.TemporarilyUnavailable, t)
  }

  // `platform` is whether the native call accepts the fragment.
  function Submit(t: Tables, e: Endpoint, fragment: seq<Byte>, notify: bool, platform: bool): (B.Submission, Tables) {
    match e
    case Server(n) => SubmitToServer(t, n, fragment, platform)
    case Central(a) => SubmitToClient(t, a, notify, platform)
  }

  // ---------- closing ----------

  function CurrentGeneration(t: Tables, e: Endpoint): Option<nat> {
    match e
    case Central(a) => Get(t.central.generations, a)
    case Server(n) => Get(t.server.generations, n)
  }

  // A parked handle keeps the PeerId it was parked with until it is released.
  function ParkedPeer(t: Tables, a: Address): Option<PeerId> {
    if Central(a) in t.peerIds then Some(t.peerIds[Central(a)])
    else if a in t.central.parked then t.central.parked[a] else None
  }

  function CloseCentral(t: Tables, a: Address, preserve: bool): Tables {
    if (preserve || a in t.server.endpointByAddress) && (a in t.central.handles || a in t.central.clients)
    then t.(central := t.central.(parked := t.central.parked[a := ParkedPeer(t, a)]))
    else Released(t, {a})
  }

  function Close(t: Tables, e: Endpoint, requested: Option<nat>, preserve: bool): Tables {
    if requested.Some? && CurrentGeneration(t, e) != requested then t
    else
      match e
      case Central(a) => CloseCentral(t, a, preserve)
      case Server(n) => t.(server := Without(t.server, n), peerIds := t.peerIds - {e})
  }

  // ---------- central links ----------

  function Connect(t: Tables, a: Address, started: bool): (Result<nat>, Tables) {
    if a in t.server.endpointByAddress || a in t.central.handles || a in t.central.clients then (Err(InvalidState), t)
    else
      var next := t.(nextGeneration := t.nextGeneration + 1);
      if !started then (Err(TransportClosed), next)
      else (Ok(t.nextGeneration),
            next.(central := t.central.(handles := t.central.handles[a := t.nextGeneration],
                                        generations := t.central.generations[a := t.nextGeneration])))
  }

  predicate Stale(t: Tables, a: Address, gatt: nat) { a in t.central.handles && t.central.handles[a] != gatt }

  function RemoveHandle(t: Tables, a: Address, gatt: nat): Tables {
    var c := t.central;
    var mine := Get(c.handles, a) == Some(gatt);
    t.(central := c.(
      handles := if mine then c.handles - {a} else c.handles,
      generations := if mine then c.generations - {a} else c.generations,
      clients := if a in c.clients && c.clients[a].gatt == gatt then c.clients - {a} else c.clients))
  }

  function FailGatt(t: Tables, a: Address, gatt: nat): Tables {
    Emit(RemoveHandle(t, a, gatt), Disconnected(Central(a), Get(t.central.generations, a)))
  }

  // `ok` is a successful STATE_CONNECTED; `proceeds` is whether MTU or discovery starts.
  function ClientStateChanged(t: Tables, a: Address, gatt: nat, ok: bool, proceeds: bool): Tables {
    if Stale(t, a, gatt) then t
    else if a in t.central.parked then
      if ok then t else RemoveHandle(t.(central := t.central.(parked := t.central.parked - {a})), a, gatt)
    else if !ok then Emit(RemoveHandle(t, a, gatt), Disconnected(Central(a), Some(gatt)))
    else if proceeds then t
    else FailGatt(t, a, gatt)
  }

  function ServicesDiscovered(t: Tables, a: Address, gatt: nat, found: bool, subscribes: bool): Tables {
    if a in t.central.parked || Stale(t, a, gatt) then t
    else if !found then FailGatt(t, a, gatt)
    else if subscribes then WithClient(t, a, Client(gatt, false, false))
    else FailGatt(WithClient(t, a, Client(gatt, false, false)), a, gatt)
  }

  function DescriptorWritten(t: Tables, a: Address, gatt: nat, ok: bool): Tables {
    if a in t.central.parked || Stale(t, a, gatt) then t
    else if !ok then FailGatt(t, a, gatt)
    else if a !in t.central.clients then Emit(t, Connected(Central(a), Some(gatt)))
    else if t.central.clients[a].connectedEmitted then t
    else Emit(WithClient(t, a, t.central.clients[a].(connectedEmitted := true)), Connected(Central(a), Some(gatt)))
  }

  function WriteFree(t: Tables, a: Address): Tables {
    if a in t.central.clients then WithClient(t, a, t.central.clients[a].(writeInFlight := false)) else t
  }

  function CharacteristicWritten(t: Tables, a: Address, gatt: nat, ok: bool): Tables {
    if a in t.central.parked || Stale(t, a, gatt) then t
    else if ok then Emit(WriteFree(t, a), Writable(Central(a), Some(gatt)))
    else FailGatt(WriteFree(t, a), a, gatt)
  }

  function CharacteristicChanged(t: Tables, a: Address, gatt: nat): Tables {
    if a in t.central.parked || Stale(t, a, gatt) then t else Emit(t, FragmentReceived(Central(a), Some(gatt)))
  }

  // ---------- everything at once ----------

  function NoServers(s: Servers): Servers {
    s.(endpointByAddress := map[], peers := map[], generations := map[], ready := {}, queues := map[], inFlight := {})
  }

  function Stopped(t: Tables): Tables {
    t.(server := NoServers(t.server),
       counts := map[], central := Centrals(map[], map[], map[], map[]), peerIds := map[])
  }

  function EmitAll(t: Tables, es: seq<Event>): Tables { t.(trace := t.trace + es) }

  // One farewell for each listed endpoint.
  function Farewells(t: Tables, order: seq<Endpoint>): seq<Event> {
    seq(|order|, i requires 0 <= i < |order| => Disconnected(order[i], CurrentGeneration(t, order[i])))
  }
}
