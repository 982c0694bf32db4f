/**
 The Apple plugin's peripheral-side tables as the object that delegate callbacks, timers
 and method calls update in place.
 */
module AppleServerPlugin {
  import opened Types
  import B = GattBackend
  import opened AppleServers

  class LocalPeerConnectionsPlugin {
    var byCentral: map<CentralId, nat>
    var byEndpoint: map<nat, CentralId>
    var centrals: set<CentralId>
    var generations: map<nat, nat>
    var activity: map<nat, nat>
    var closing: set<nat>
    var cleanup: set<nat>
    var retry: set<nat>
    var checks: map<CentralId, Check>
    var nextEndpoint: nat
    var nextGeneration: nat
    var trace: seq<Event>

    ghost function LinkTables(): Links
      reads this
    {
      Links(byCentral, byEndpoint, centrals, generations, activity)
    }

    ghost function Contents(): Tables
      reads this
    {
      Tables(LinkTables(), closing, cleanup, retry, checks, nextEndpoint, nextGeneration, trace)
    }

    constructor ()
      ensures Contents() == EMPTY
    {
      byCentral, byEndpoint, centrals, generations, activity := map[], map[], {}, map[], map[];
      closing, cleanup, retry, checks := {}, {}, {}, map[];
      nextEndpoint, nextGeneration, trace := 1, 1, [];
    }

    method RemoveLink(e: nat)
      modifies this`byCentral, this`byEndpoint, this`centrals, this`generations, this`activity
      ensures LinkTables() == Without(old(LinkTables()), e)
    {
      if e in byEndpoint {
        var c := byEndpoint[e];
        if c in byCentral && byCentral[c] == e {
          byCentral := byCentral - {c};
          centrals := centrals - {c};
        }
      }
      byEndpoint := byEndpoint - {e};
      generations := generations - {e};
      activity := activity - {e};
    }

    method RetireClosingServerEndpoint(e: nat, emits: bool)
      modifies this
      ensures Contents() == RetireClosing(old(Contents()), e, emits)
    {
      if e !in closing { return; }
      closing, cleanup, retry := closing - {e}, cleanup - {e}, retry - {e};
      ForgetCheck(e);
      RemoveLink(e);
      if emits { trace := trace + [Disconnected(e)]; }
    }

    method ForgetCheck(e: nat)
      modifies this`checks
      ensures checks == ChecksWithout(old(Contents()), e)
    {
      if e in byEndpoint && byEndpoint[e] in byCentral && byCentral[byEndpoint[e]] == e {
        checks := checks - {byEndpoint[e]};
      }
    }

    method AddLink(c: CentralId, now: nat)
      modifies this
      ensures Contents() == Create(old(Contents()), c, now)
    {
      var e := nextEndpoint;
      nextEndpoint := nextEndpoint + 1;
      InstallLink(c, e, now);
      nextGeneration := nextGeneration + 1;
      trace := trace + [Connected(e)];
    }

    method InstallLink(c: CentralId, e: nat, now: nat)
      modifies this`byCentral, this`byEndpoint, this`centrals, this`generations, this`activity
      ensures LinkTables() == Joined(old(LinkTables()), c, e, nextGeneration, now)
    {
      centrals := centrals + {c};
      byCentral := byCentral[c := e];
      byEndpoint := byEndpoint[e := c];
      generations := generations[e := nextGeneration];
      activity := activity[e := now];
    }

    method EnsureServerEndpoint(c: CentralId, serving: bool, now: nat) returns (e: Option<nat>)
      modifies this
      ensures (e, Contents()) == Ensure(old(Contents()), c, serving, now)
    {
      if c in byCentral {
        var existing := byCentral[c];
        if existing !in closing { return Some(existing); }
        RetireClosingServerEndpoint(existing, true);
      }
      if !serving { return None; }
      e := Some(nextEndpoint);
      AddLink(c, now);
    }

    method DidReceiveWrite(c: CentralId, serving: bool, now: nat)
      modifies this
      ensures Contents() == FragmentWritten(old(Contents()), c, serving, now)
    {
      var e := if c in byCentral then Some(byCentral[c]) else None;
      if e.None? { e := EnsureServerEndpoint(c, serving, now); }
      if e.None? { return; }
      checks := checks - {c};
      activity := activity[e.value := now];
      trace := trace + [FragmentReceived(e.value)];
    }

    method DidSubscribe(c: CentralId, now: nat)
      modifies this
      ensures Contents() == Subscribed(old(Contents()), c, now)
    {
      if c in byCentral {
        var old_ := byCentral[c];
        if old_ in closing {
          RetireClosingServerEndpoint(old_, true);
        } else {
          checks := checks - {c};
          var last := if old_ in activity then activity[old_] else now;
          if now - last < STALE_BINDING_MS { return; }
          RemoveLink(old_);
          trace := trace + [Disconnected(old_)];
        }
      }
      var _ := EnsureServerEndpoint(c, true, now);
    }

    method DidUnsubscribe(c: CentralId, now: nat)
      modifies this
      ensures Contents() == Unsubscribed(old(Contents()), c, now)
    {
      if c !in byCentral { return; }
      var e := byCentral[c];
      if e in closing {
        RetireClosingServerEndpoint(e, false);
        return;
      }
      if e !in generations { return; }
      checks := checks[c := Check(e, generations[e], now)];
    }

    method UnsubscribeCheckFired(c: CentralId)
      modifies this
      ensures Contents() == CheckFires(old(Contents()), c)
    {
      if c !in checks { return; }
      var check := checks[c];
      if c !in byCentral || byCentral[c] != check.endpoint { return; }
      if check.endpoint !in generations || generations[check.endpoint] != check.generation { return; }
      checks := checks - {c};
      if check.endpoint in activity && activity[check.endpoint] > check.observedAt { return; }
      RemoveLink(check.endpoint);
      trace := trace + [Disconnected(check.endpoint)];
    }

    method CleanupFired(e: nat)
      modifies this
      ensures Contents() == CleanupFires(old(Contents()), e)
    {
      if e in cleanup { RetireClosingServerEndpoint(e, false); }
    }

    // With nothing but closing endpoints left, the service is rebuilt at once.
    method CloseServerEndpoint(e: nat, requested: Option<nat>, serving: bool, order: seq<nat>)
      modifies this
      ensures Contents() == Close(old(Contents()), e, requested, serving, order)
    {
      if e !in byEndpoint { return; }
      if requested.Some? && e in generations && requested.value != generations[e] { return; }
      closing := closing + {e};
      checks := checks - {byEndpoint[e]};
      cleanup := cleanup + {e};
      if serving && generations.Keys <= closing { ListenGatt(order); }
    }

    // One farewell for each endpoint, then empty tables.
    method ListenGatt(order: seq<nat>)
      modifies this
      ensures Contents() == Listen(old(Contents()), order)
    {
      SayFarewells(order);
      ClearLinks();
      closing, cleanup, retry, checks := {}, {}, {}, map[];
    }

    method SayFarewells(order: seq<nat>)
      modifies this`trace
      ensures trace == old(trace) + Farewells(order)
    {
      ghost var before := trace;
      for i := 0 to |order|
        invariant trace == before + Farewells(order)[..i]
      {
        trace := trace + [Disconnected(order[i])];
        assert Farewells(order)[..i + 1] == Farewells(order)[..i] + [Disconnected(order[i])];
      }
      assert Farewells(order)[..|order|] == Farewells(order);
    }

    method ClearLinks()
      modifies this`byCentral, this`byEndpoint, this`centrals, this`generations, this`activity
      ensures LinkTables() == NO_LINKS
    {
      byCentral, byEndpoint, centrals, generations, activity := map[], map[], {}, map[], map[];
    }

    // `accepted` is whether CoreBluetooth takes the notification.
    method SubmitNotification(e: nat, requested: Option<nat>, accepted: bool, now: nat) returns (r: Result<B.Submission>)
      modifies this
      ensures (r, Contents()) == Submit(old(Contents()), e, requested, accepted, now)
    {
      if e !in byEndpoint || byEndpoint[e] !in centrals { return Err(TransportClosed); }
      if requested.Some? && (e !in generations || generations[e] != requested.value) { return Err(TransportClosed); }
      if accepted {
        checks := checks - {byEndpoint[e]};
        retry := retry - {e};
        activity := activity[e := now];
        return Ok(B.Submitted);
      }
      ScheduleServerWritableRetry(e);
      r := Ok(B.TemporarilyUnavailable);
    }

    method ScheduleServerWritableRetry(e: nat)
      modifies this`retry
      ensures Contents() == Armed(old(Contents()), e)
    {
      if e in retry || e in closing { return; }
      retry := retry + {e};
    }

    method RetryFired(e: nat)
      modifies this`retry, this`trace
      ensures Contents() == RetryFires(old(Contents()), e)
    {
      if e !in retry || e !in generations || e in closing { return; }
      retry := retry - {e};
      trace := trace + [Writable(e)];
    }
  }
}
