/**
 The peripheral-side link tables of the Apple plugin. CoreBluetooth names a remote central,
 not a link, and cannot cancel one; so a closed endpoint is only marked until its central
 subscribes again or unsubscribes, or a grace period ends.
 */
module AppleServers {
  import opened Types
  import B = GattBackend

  type CentralId = nat

  const STALE_BINDING_MS: nat := 10_000

  datatype Event =
    | Connected(endpoint: nat)
    | Disconnected(endpoint: nat)
    | FragmentReceived(endpoint: nat)
    | Writable(endpoint: nat)

  // A delayed look at an endpoint whose central unsubscribed.
  datatype Check = Check(endpoint: nat, generation: nat, observedAt: nat)

  datatype Links = Links(
    byCentral: map<CentralId, nat>,
    byEndpoint: map<nat, CentralId>,
    centrals: set<CentralId>,
    generations: map<nat, nat>,
    activity: map<nat, nat>)

  datatype Tables = Tables(
    links: Links,
    closing: set<nat>,
    cleanup: set<nat>,
    retry: set<nat>,
    checks: map<CentralId, Check>,
    next: nat,
    nextGeneration: nat,
    trace: seq<Event>)

  const NO_LINKS := Links(map[], map[], {}, map[], map[])

  const EMPTY := Tables(NO_LINKS, {}, {}, {}, map[], 1, 1, [])

  function Get<K, V>(m: map<K, V>, k: K): Option<V> { if k in m then Some(m[k]) else None }

  function Emit(t: Tables, e: Event): Tables { t.(trace := t.trace + [e]) }

  // The endpoint leaves the link tables; its central too, if it still names it.
  function Without(l: Links, e: nat): Links {
    var named := e in l.byEndpoint && Get(l.byCentral, l.byEndpoint[e]) == Some(e);
    Links(if named then l.byCentral - {l.byEndpoint[e]} else l.byCentral, l.byEndpoint - {e},
          if named then l.centrals - {l.byEndpoint[e]} else l.centrals, l.generations - {e}, l.activity - {e})
  }

  function ChecksWithout(t: Tables, e: nat): map<CentralId, Check> {
    if e in t.links.byEndpoint && Get(t.links.byCentral, t.links.byEndpoint[e]) == Some(e)
    then t.checks - {t.links.byEndpoint[e]} else t.checks
  }

  function RetireClosing(t: Tables, e: nat, emits: bool): Tables {
    if e !in t.closing then t
    else
      var gone := t.(closing := t.closing - {e}, cleanup := t.cleanup - {e}, retry := t.retry - {e},
                     checks := ChecksWithout(t, e), links := Without(t.links, e));
      if emits then Emit(gone, Disconnected(e)) else gone
  }

  function Joined(l: Links, c: CentralId, e: nat, generation: nat, now: nat): Links {
    Links(l.byCentral[c := e], l.byEndpoint[e := c], l.centrals + {c}, l.generations[e := generation], l.activity[e := now])
  }

  function Create(t: Tables, c: CentralId, now: nat): Tables {
    Emit(t.(links := Joined(t.links, c, t.next, t.nextGeneration, now), next := t.next + 1,
            nextGeneration := t.nextGeneration + 1), Connected(t.next))
  }

  // `serving` is whether the GATT service is installed.
  function Ensure(t: Tables, c: CentralId, serving: bool, now: nat): (Option<nat>, Tables) {
    if c in t.links.byCentral && t.links.byCentral[c] !in t.closing then (Some(t.links.byCentral[c]), t)
    else
      var free := if c in t.links.byCentral then RetireClosing(t, t.links.byCentral[c], true) else t;
      if !serving then (None, free) else (Some(free.next), Create(free, c, now))
  }

  // A fragment of a live endpoint is activity, and answers a pending unsubscribe check.
  function Heard(t: Tables, c: CentralId, e: nat, now: nat): Tables {
    t.(checks := t.checks - {c}, links := t.links.(activity := t.links.activity[e := now]))
  }

  function FragmentWritten(t: Tables, c: CentralId, serving: bool, now: nat): Tables {
    var (e, t1) := if c in t.links.byCentral then (Some(t.links.byCentral[c]), t) else Ensure(t, c, serving, now);
    if e.None? then t1 else Emit(Heard(t1, c, e.value, now), FragmentReceived(e.value))
  }

  // A subscription replaces a closing endpoint, or one idle for the stale window; an
  // active endpoint is kept.
  function Subscribed(t: Tables, c: CentralId, now: nat): Tables {
    if c !in t.links.byCentral then Ensure(t, c, true, now).1
    else
      var old_ := t.links.byCentral[c];
      if old_ in t.closing then Ensure(RetireClosing(t, old_, true), c, true, now).1
      else
        var seen := t.(checks := t.checks - {c});
        if now - (if old_ in t.links.activity then t.links.activity[old_] else now) < STALE_BINDING_MS then seen
        else Ensure(Emit(seen.(links := Without(t.links, old_)), Disconnected(old_)), c, true, now).1
  }

  function Unsubscribed(t: Tables, c: CentralId, now: nat): Tables {
    if c !in t.links.byCentral then t
    else
      var e := t.links.byCentral[c];
      if e in t.closing then RetireClosing(t, e, false)
      else if e !in t.links.generations then t
      else t.(checks := t.checks[c := Check(e, t.links.generations[e], now)])
  }

  // The delayed check retires the endpoint unless something was heard since.
  function CheckFires(t: Tables, c: CentralId): Tables {
    if c !in t.checks then t
    else
      var check := t.checks[c];
      if Get(t.links.byCentral, c) != Some(check.endpoint) || Get(t.links.generations, check.endpoint) != Some(check.generation) then t
      else
        var seen := t.(checks := t.checks - {c});
        if check.endpoint in t.links.activity && t.links.activity[check.endpoint] > check.observedAt then seen
        else Emit(seen.(links := Without(t.links, check.endpoint)), Disconnected(check.endpoint))
  }

  function CleanupFires(t: Tables, e: nat): Tables { if e in t.cleanup then RetireClosing(t, e, false) else t }

  // Everything is forgotten after one farewell per listed endpoint.
  function Listen(t: Tables, order: seq<nat>): Tables {
    t.(links := NO_LINKS, closing := {}, cleanup := {}, retry := {}, checks := map[],
       trace := t.trace + Farewells(order))
  }

  function Farewells(order: seq<nat>): seq<Event> {
    seq(|order|, i requires 0 <= i < |order| => Disconnected(order[i]))
  }

  // The keys of the generation table, in the order it is walked.
  predicate Lists(t: Tables, order: seq<nat>) {
    (set e | e in order) == t.links.generations.Keys && (forall i, j :: 0 <= i < j < |order| ==> order[i] != order[j])
  }

  function Marked(t: Tables, e: nat): Tables
    requires e in t.links.byEndpoint
  {
    t.(closing := t.closing + {e}, checks := t.checks - {t.links.byEndpoint[e]}, cleanup := t.cleanup + {e})
  }

  // `serving` is whether a service UUID is active; with nothing but closing endpoints left
  // the service is rebuilt.
  function Close(t: Tables, e: nat, requested: Option<nat>, serving: bool, order: seq<nat>): Tables {
    if e !in t.links.byEndpoint then t
    else if requested.Some? && e in t.links.generations && requested.value != t.links.generations[e] then t
    else
      var marked := Marked(t, e);
      if serving && t.links.generations.Keys <= marked.closing then Listen(marked, order) else marked
  }

  function Stopped(t: Tables): Tables { t.(links := NO_LINKS, closing := {}, cleanup := {}, retry := {}, checks := map[]) }

  // A refused notification arms the retry timer, unless it is armed or the endpoint closes.
  function Armed(t: Tables, e: nat): Tables {
    if e in t.retry || e in t.closing then t else t.(retry := t.retry + {e})
  }

  function Submit(t: Tables, e: nat, requested: Option<nat>, accepted: bool, now: nat): (Result<B.Submission>, Tables) {
    if e !in t.links.byEndpoint || t.links.byEndpoint[e] !in t.links.centrals then (Err(TransportClosed), t)
    else if requested.Some? && Get(t.links.generations, e) != requested then (Err(TransportClosed), t)
    else if accepted then
      (Ok(B.Submitted), Heard(t, t.links.byEndpoint[e], e, now).(retry := t.retry - {e}))
    else (Ok(B.TemporarilyUnavailable), Armed(t, e))
  }

  function RetryFires(t: Tables, e: nat): Tables {
    if e !in t.retry || e !in t.links.generations || e in t.closing then t
    else Emit(t.(retry := t.retry - {e}), Writable(e))
  }

  // ---------- runs ----------

  datatype Step =
    | Writes(central: CentralId, serving: bool, now: nat)
    | Subscribes(central: CentralId, now: nat)
    | Unsubscribes(central: CentralId, now: nat)
    | Checks(central: CentralId)
    | CleansUp(endpoint: nat)
    | Closes(endpoint: nat, requested: Option<nat>, serving: bool, order: seq<nat>)
    | Listens(order: seq<nat>)
    | Stops
    | Submits(endpoint: nat, requested: Option<nat>, accepted: bool, now: nat)
    | Retries(endpoint: nat)

  function Next(t: Tables, s: Step): Tables {
    match s
    case Writes(c, serving, now) => FragmentWritten(t, c, serving, now)
    case Subscribes(c, now) => Subscribed(t, c, now)
    case Unsubscribes(c, now) => Unsubscribed(t, c, now)
    case Checks(c) => CheckFires(t, c)
    case CleansUp(e) => CleanupFires(t, e)
    case Closes(e, requested, serving, order) => if Lists(t, order) then Close(t, e, requested, serving, order) else t
    case Listens(order) => if Lists(t, order) then Listen(t, order) else t
    case Stops => Stopped(t)
    case Submits(e, requested, accepted, now) => Submit(t, e, requested, accepted, now).1
    case Retries(e) => RetryFires(t, e)
  }

  function Run(steps: seq<Step>): Tables {
    if steps == [] then EMPTY else Next(Run(steps[..|steps| - 1]), steps[|steps| - 1])
  }
}
