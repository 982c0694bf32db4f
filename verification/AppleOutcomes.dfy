/**
 What each callback and call of the Apple peripheral side brings about: which endpoint a
 central has afterwards, what is retired, and which events are emitted.
 */
module AppleOutcomes {
  import opened Types
  import B = GattBackend
  import opened AppleServers
  import opened AppleRuns

  // Nothing of the link tables changes and nothing is emitted.
  predicate Unseen(t: Tables, t': Tables) { t'.links == t.links && t'.closing == t.closing && t'.trace == t.trace && t'.next == t.next }

  // The endpoint and its central are gone; every other link is as it was.
  ghost predicate Gone(t: Tables, t': Tables, c: CentralId, e: nat) {
    && t'.links.byCentral == t.links.byCentral - {c} && t'.links.byEndpoint == t.links.byEndpoint - {e}
    && t'.links.generations == t.links.generations - {e} && t'.closing == t.closing - {e} && c !in t'.checks
    && (e in t.closing ==> e !in t'.retry && e !in t'.cleanup)
  }

  // The central has a new endpoint under the next name and the next generation.
  ghost predicate Fresh(t: Tables, t': Tables, c: CentralId) {
    && t'.links.byCentral == t.links.byCentral[c := t.next] && t'.next == t.next + 1
    && t.next in t'.links.byEndpoint && t'.links.byEndpoint[t.next] == c
    && t.next in t'.links.generations && t'.links.generations[t.next] == t.nextGeneration && t'.nextGeneration == t.nextGeneration + 1
  }

  // A new endpoint after the old one was retired with its farewell.
  ghost predicate Replaced(t: Tables, t': Tables, c: CentralId, e: nat) {
    && Fresh(t, t', c) && e !in t'.links.byEndpoint && t'.trace == t.trace + [Disconnected(e)] + [Connected(t.next)]
    && (e in t.closing ==> e !in t'.retry && e !in t'.cleanup && e !in t'.closing)
  }

  lemma EndpointOf(t: Tables, c: CentralId)
    requires Inv(t) && c in t.links.byCentral
    ensures var e := t.links.byCentral[c];
            && e in t.links.byEndpoint && t.links.byEndpoint[e] == c && e in t.links.generations && e in t.links.activity && e < t.next
            && (c in t.checks ==> t.checks[c].endpoint == e && t.checks[c].generation == t.links.generations[e] && e !in t.closing)
  {
    assert CentralOk(t.links, c);
    assert LinkOk(t.links, t.next, t.links.byCentral[c]);
  }

  // A subscription: without an endpoint the central gets one; a closing endpoint, and one
  // that has been idle for ten seconds, is replaced; an active one is kept.
  lemma SubscriptionDecided(t: Tables, c: CentralId, now: nat)
    requires Inv(t)
    ensures var (t', known) := (Subscribed(t, c, now), c in t.links.byCentral);
            && (!known ==> Fresh(t, t', c) && t'.trace == t.trace + [Connected(t.next)])
            && (known ==>
                  var e := t.links.byCentral[c];
                  && e in t.links.activity
                  && (e in t.closing || now - t.links.activity[e] >= 10_000 ==> Replaced(t, t', c, e))
                  && (e !in t.closing && now - t.links.activity[e] < 10_000 ==> Unseen(t, t') && c !in t'.checks))
  {
    if c in t.links.byCentral { EndpointOf(t, c); }
  }

  // A write: it is delivered under the endpoint of its central, which is created first when
  // there is none and the service is installed; it is activity and ends a pending check.
  lemma WriteDecided(t: Tables, c: CentralId, serving: bool, now: nat)
    requires Inv(t)
    ensures var (t', known) := (FragmentWritten(t, c, serving, now), c in t.links.byCentral);
            && (known ==>
                  var e := t.links.byCentral[c];
                  t'.trace == t.trace + [FragmentReceived(e)] && t'.links == t.links.(activity := t.links.activity[e := now]) && c !in t'.checks)
            && (!known && serving ==>
                  Fresh(t, t', c) && t'.trace == t.trace + [Connected(t.next)] + [FragmentReceived(t.next)])
            && (!known && !serving ==> t' == t)
  {
    if c in t.links.byCentral { EndpointOf(t, c); }
  }

  // An endpoint asked for: the live one, a new one in place of a closing one, or none
  // without the service.
  lemma EnsureDecided(t: Tables, c: CentralId, serving: bool, now: nat)
    requires Inv(t)
    ensures var (e, t') := Ensure(t, c, serving, now);
            var current := Get(t.links.byCentral, c);
            && (current.Some? && current.value !in t.closing ==> e == current && t' == t)
            && (current.None? && serving ==> e == Some(t.next) && Fresh(t, t', c) && t'.trace == t.trace + [Connected(t.next)])
            && (current.None? && !serving ==> e == None && t' == t)
            && (current.Some? && current.value in t.closing && serving ==> e == Some(t.next) && Replaced(t, t', c, current.value))
            && (current.Some? && current.value in t.closing && !serving ==>
                  e == None && Gone(t, t', c, current.value) && t'.trace == t.trace + [Disconnected(current.value)])
  {
    if c in t.links.byCentral { EndpointOf(t, c); }
  }

  // An unsubscription releases a closing endpoint without a word; for a live one it only
  // schedules a check, for the endpoint and generation of that moment.
  lemma UnsubscriptionDecided(t: Tables, c: CentralId, now: nat)
    requires Inv(t)
    ensures var t' := Unsubscribed(t, c, now);
            && t'.trace == t.trace
            && (c !in t.links.byCentral ==> t' == t)
            && (c in t.links.byCentral ==>
                  var e := t.links.byCentral[c];
                  && e in t.links.generations
                  && (e in t.closing ==> Gone(t, t', c, e))
                  && (e !in t.closing ==> t' == t.(checks := t.checks[c := Check(e, t.links.generations[e], now)])))
  {
    if c in t.links.byCentral { EndpointOf(t, c); }
  }

  // The check retires the endpoint exactly when nothing was heard since it was scheduled.
  lemma CheckDecided(t: Tables, c: CentralId)
    requires Inv(t) && c in t.checks
    ensures var (t', check) := (CheckFires(t, c), t.checks[c]);
            && check.endpoint in t.links.activity
            && (t.links.activity[check.endpoint] > check.observedAt ==> t' == t.(checks := t.checks - {c}))
            && (t.links.activity[check.endpoint] <= check.observedAt ==>
                  Gone(t, t', c, check.endpoint) && t'.trace == t.trace + [Disconnected(check.endpoint)])
  {
    EndpointOf(t, c);
  }

  // The end of the grace period releases a closing endpoint without a word.
  lemma CleanupDecided(t: Tables, e: nat)
    requires Inv(t)
    ensures var t' := CleanupFires(t, e);
            && t'.trace == t.trace
            && (e in t.cleanup ==> e in t.links.byEndpoint && Gone(t, t', t.links.byEndpoint[e], e))
            && (e !in t.cleanup ==> t' == t)
  {
    if e in t.cleanup { assert LinkOk(t.links, t.next, e); }
  }

  // A close: an unknown endpoint, or an old generation, changes nothing; otherwise the
  // endpoint is marked and its central keeps it, unless every endpoint is closing by then,
  // and the service is rebuilt after one farewell for each.
  lemma CloseDecided(t: Tables, e: nat, requested: Option<nat>, serving: bool, order: seq<nat>)
    requires Inv(t) && Lists(t, order)
    ensures var t' := Close(t, e, requested, serving, order);
            var current := e in t.links.byEndpoint && (requested.None? || (e in t.links.generations && t.links.generations[e] == requested.value));
            var last := forall n :: n in t.links.generations ==> n in t.closing || n == e;
            && (!current ==> t' == t)
            && (current && !(serving && last) ==>
                  t'.links == t.links && t'.closing == t.closing + {e} && t'.cleanup == t.cleanup + {e} && t'.trace == t.trace
                  && t.links.byEndpoint[e] !in t'.checks)
            && (current && serving && last ==>
                  && t'.links == Links(map[], map[], {}, map[], map[]) && t'.closing == {} && t'.checks == map[] && t'.retry == {}
                  && t'.trace == t.trace + seq(|order|, i requires 0 <= i < |order| => Disconnected(order[i])))
  {
    assert LinkOk(t.links, t.next, e);
    if e in t.links.byEndpoint {
      var last := forall n :: n in t.links.generations ==> n in t.closing || n == e;
      assert last <==> t.links.generations.Keys <= Marked(t, e).closing;
    }
  }

  // A submission to an endpoint of the generation asked for is accepted, as activity that
  // ends its retry, or refused, which arms the retry unless the endpoint is closing.
  lemma SubmissionDecided(t: Tables, e: nat, requested: Option<nat>, accepted: bool, now: nat)
    requires Inv(t)
    ensures var (r, t') := Submit(t, e, requested, accepted, now);
            var current := e in t.links.generations && (requested.None? || requested.value == t.links.generations[e]);
            && (r == Err(TransportClosed) <==> !current) && (!current ==> t' == t)
            && (current && accepted ==>
                  && r == Ok(B.Submitted) && t'.retry == t.retry - {e} && t'.links == t.links.(activity := t.links.activity[e := now])
                  && t'.trace == t.trace)
            && (current && !accepted ==>
                  r == Ok(B.TemporarilyUnavailable) && t' == t.(retry := if e in t.closing then t.retry else t.retry + {e}))
  {
    assert LinkOk(t.links, t.next, e);
    if e in t.links.byEndpoint { assert CentralOk(t.links, t.links.byEndpoint[e]); }
    if e in t.retry { assert t.retry + {e} == t.retry; }
  }

  // An armed retry of a live endpoint that is not closing emits its event once.
  lemma RetryDecided(t: Tables, e: nat)
    requires Inv(t)
    ensures var (t', due) := (RetryFires(t, e), e in t.retry && e in t.links.byEndpoint && e !in t.closing);
            && (due ==> t' == t.(retry := t.retry - {e}, trace := t.trace + [Writable(e)]))
            && (!due ==> t' == t)
  {
    assert LinkOk(t.links, t.next, e);
  }

  // Stopping forgets every link without a word.
  lemma StopDecided(t: Tables)
    ensures var t' := Stopped(t);
            && t'.links.byCentral == map[] && t'.links.byEndpoint == map[] && t'.closing == {} && t'.checks == map[] && t'.retry == {}
            && t'.trace == t.trace && t'.next == t.next && t'.nextGeneration == t.nextGeneration
  {
  }
}
