/**
 What every run of the Apple peripheral-side tables keeps: inverse tables over one key
 set, one well-formed event trace per endpoint, and an armed retry timer behind every
 refused notification.
 */
module AppleRuns {
  import opened Types
  import B = GattBackend
  import opened AppleServers

  // ---------- the trace of one endpoint ----------

  function Own(trace: seq<Event>, n: nat): seq<Event> {
    if trace == [] then []
    else if trace[|trace| - 1].endpoint == n then Own(trace[..|trace| - 1], n) + [trace[|trace| - 1]]
    else Own(trace[..|trace| - 1], n)
  }

  lemma OwnEmit(trace: seq<Event>, e: Event, n: nat)
    ensures Own(trace + [e], n) == if e.endpoint == n then Own(trace, n) + [e] else Own(trace, n)
  {
    assert (trace + [e])[..|trace|] == trace;
  }

  // First connected, then fragments and writables, then at most one disconnected.
  ghost predicate WellFormed(own: seq<Event>) {
    && (own != [] ==> own[0].Connected?)
    && (forall i :: 0 < i < |own| ==> !own[i].Connected?)
    && (forall i :: 0 <= i < |own| - 1 ==> !own[i].Disconnected?)
  }

  ghost predicate TraceOk(t: Tables, n: nat) {
    var own := Own(t.trace, n);
    && WellFormed(own)
    && (n in t.links.byEndpoint ==> own != [] && !own[|own| - 1].Disconnected?)
    && (n >= t.next ==> own == [])
  }

  // ---------- the tables ----------

  ghost predicate LinkOk(l: Links, next: nat, n: nat) {
    && (n in l.byEndpoint <==> n in l.generations) && (n in l.byEndpoint <==> n in l.activity)
    && (n in l.byEndpoint ==> n < next && l.byEndpoint[n] in l.byCentral && l.byCentral[l.byEndpoint[n]] == n)
  }

  ghost predicate CentralOk(l: Links, c: CentralId) {
    && (c in l.byCentral <==> c in l.centrals)
    && (c in l.byCentral ==> l.byCentral[c] in l.byEndpoint && l.byEndpoint[l.byCentral[c]] == c)
  }

  ghost predicate LinksOk(l: Links, next: nat) {
    (forall n: nat :: LinkOk(l, next, n)) && (forall c: CentralId :: CentralOk(l, c))
  }

  // Marks and timers belong to live endpoints, a pending check to an endpoint not closing.
  ghost predicate MarksOk(t: Tables) {
    && t.cleanup <= t.closing && t.closing <= t.links.byEndpoint.Keys
    && (forall c :: c in t.checks ==>
          c in t.links.byCentral && t.checks[c].endpoint == t.links.byCentral[c] && t.checks[c].endpoint !in t.closing
          && t.checks[c].endpoint in t.links.generations && t.links.generations[t.checks[c].endpoint] == t.checks[c].generation)
  }

  ghost predicate Inv(t: Tables) {
    LinksOk(t.links, t.next) && MarksOk(t) && (forall n: nat :: TraceOk(t, n))
  }

  // ---------- links ----------

  lemma WithoutKeeps(l: Links, next: nat, e: nat)
    requires LinksOk(l, next)
    ensures LinksOk(Without(l, e), next)
  {
    var l' := Without(l, e);
    assert LinkOk(l, next, e);
    forall n: nat ensures LinkOk(l', next, n) { assert LinkOk(l, next, n); }
    forall c: CentralId ensures CentralOk(l', c) { assert CentralOk(l, c); }
  }

  lemma JoinedKeeps(l: Links, next: nat, c: CentralId, generation: nat, now: nat)
    requires LinksOk(l, next) && c !in l.byCentral
    ensures LinksOk(Joined(l, c, next, generation, now), next + 1)
  {
    var l', after := Joined(l, c, next, generation, now), next + 1;
    assert LinkOk(l, next, next);
    forall n: nat ensures LinkOk(l', after, n) { assert LinkOk(l, next, n); }
    forall d: CentralId ensures CentralOk(l', d) { assert CentralOk(l, d); }
  }

  lemma HeardLinks(l: Links, next: nat, e: nat, now: nat)
    requires LinksOk(l, next) && e in l.byEndpoint
    ensures LinksOk(l.(activity := l.activity[e := now]), next)
  {
    var l' := l.(activity := l.activity[e := now]);
    forall n: nat ensures LinkOk(l', next, n) { assert LinkOk(l, next, n); }
    forall c: CentralId ensures CentralOk(l', c) { assert CentralOk(l, c); }
  }

  // ---------- the ends of an endpoint ----------

  lemma EndTrace(t: Tables, t': Tables, e: nat, n: nat)
    requires TraceOk(t, n) && t'.next == t.next && t'.links.byEndpoint == t.links.byEndpoint - {e}
    requires t'.trace == t.trace || (e in t.links.byEndpoint && t'.trace == t.trace + [Disconnected(e)])
    ensures TraceOk(t', n)
  {
    OwnEmit(t.trace, Disconnected(e), n);
  }

  lemma WithoutMarks(t: Tables, e: nat, checks: map<CentralId, Check>, closing: set<nat>, cleanup: set<nat>)
    requires LinksOk(t.links, t.next) && MarksOk(t) && e in t.links.byEndpoint
    requires forall c :: c in checks ==> c in t.checks && checks[c] == t.checks[c] && c != t.links.byEndpoint[e]
    requires closing <= t.closing && e !in closing && cleanup <= t.cleanup && cleanup <= closing
    ensures MarksOk(t.(links := Without(t.links, e), checks := checks, closing := closing, cleanup := cleanup))
  {
    assert LinkOk(t.links, t.next, e);
    forall c | c in checks ensures c in Without(t.links, e).byCentral && checks[c].endpoint in Without(t.links, e).generations {
      assert CentralOk(t.links, c);
    }
  }

  lemma RetireKeeps(t: Tables, e: nat, emits: bool)
    requires Inv(t)
    ensures Inv(RetireClosing(t, e, emits))
  {
    if e in t.closing {
      var t' := RetireClosing(t, e, emits);
      assert LinkOk(t.links, t.next, e);
      WithoutKeeps(t.links, t.next, e);
      WithoutMarks(t, e, ChecksWithout(t, e), t.closing - {e}, t.cleanup - {e});
      forall n: nat ensures TraceOk(t', n) { assert TraceOk(t, n); EndTrace(t, t', e, n); }
    }
  }

  // An endpoint that is not closing ends on its own account.
  lemma EndKeeps(t: Tables, c: CentralId)
    requires Inv(t) && c in t.links.byCentral && t.links.byCentral[c] !in t.closing
    ensures Inv(Emit(t.(checks := t.checks - {c}, links := Without(t.links, t.links.byCentral[c])), Disconnected(t.links.byCentral[c])))
    ensures c !in Without(t.links, t.links.byCentral[c]).byCentral
  {
    var e := t.links.byCentral[c];
    var t' := Emit(t.(checks := t.checks - {c}, links := Without(t.links, e)), Disconnected(e));
    assert CentralOk(t.links, c);
    WithoutKeeps(t.links, t.next, e);
    WithoutMarks(t, e, t.checks - {c}, t.closing, t.cleanup);
    forall n: nat ensures TraceOk(t', n) { assert TraceOk(t, n); EndTrace(t, t', e, n); }
  }

  // ---------- a new endpoint ----------

  lemma CreateKeeps(t: Tables, c: CentralId, now: nat)
    requires Inv(t) && c !in t.links.byCentral
    ensures Inv(Create(t, c, now)) && c in Create(t, c, now).links.byCentral && Create(t, c, now).links.byCentral[c] == t.next
    ensures t.next in Create(t, c, now).links.byEndpoint
  {
    var t' := Create(t, c, now);
    JoinedKeeps(t.links, t.next, c, t.nextGeneration, now);
    assert LinkOk(t.links, t.next, t.next);
    forall n: nat ensures TraceOk(t', n) {
      assert TraceOk(t, n);
      OwnEmit(t.trace, Connected(t.next), n);
    }
    forall d | d in t'.checks ensures t'.links.byCentral[d] == t.links.byCentral[d] && t'.checks[d].endpoint != t.next {
      assert CentralOk(t.links, d);
    }
  }

  lemma EnsureKeeps(t: Tables, c: CentralId, serving: bool, now: nat)
    requires Inv(t)
    ensures Inv(Ensure(t, c, serving, now).1)
    ensures Ensure(t, c, serving, now).0.Some? ==>
              Get(Ensure(t, c, serving, now).1.links.byCentral, c) == Ensure(t, c, serving, now).0
              && Ensure(t, c, serving, now).0.value in Ensure(t, c, serving, now).1.links.byEndpoint
  {
    assert CentralOk(t.links, c);
    if c in t.links.byCentral && t.links.byCentral[c] in t.closing {
      var e := t.links.byCentral[c];
      RetireKeeps(t, e, true);
      var free := RetireClosing(t, e, true);
      assert c !in free.links.byCentral;
      if serving { CreateKeeps(free, c, now); }
    } else if c !in t.links.byCentral && serving {
      CreateKeeps(t, c, now);
    }
  }

  // ---------- one more event of a live endpoint ----------

  lemma SaidTrace(t: Tables, t': Tables, e: Event, n: nat)
    requires TraceOk(t, n) && t'.trace == t.trace + [e] && !e.Connected? && !e.Disconnected?
    requires e.endpoint in t.links.byEndpoint && t'.links.byEndpoint == t.links.byEndpoint && t'.next == t.next
    requires TraceOk(t, e.endpoint)
    ensures TraceOk(t', n)
  {
    OwnEmit(t.trace, e, n);
  }

  lemma HeardKeeps(t: Tables, c: CentralId, e: nat, now: nat)
    requires Inv(t) && e in t.links.byEndpoint
    ensures Inv(Heard(t, c, e, now))
  {
    HeardLinks(t.links, t.next, e, now);
    forall n: nat ensures TraceOk(Heard(t, c, e, now), n) { assert TraceOk(t, n); }
  }

  lemma EmitKeeps(t: Tables, e: Event)
    requires Inv(t) && !e.Connected? && !e.Disconnected? && e.endpoint in t.links.byEndpoint
    ensures Inv(Emit(t, e))
  {
    forall n: nat ensures TraceOk(Emit(t, e), n) {
      assert TraceOk(t, n) && TraceOk(t, e.endpoint);
      SaidTrace(t, Emit(t, e), e, n);
    }
  }

  lemma FragmentKeeps(t: Tables, c: CentralId, serving: bool, now: nat)
    requires Inv(t)
    ensures Inv(FragmentWritten(t, c, serving, now))
  {
    assert CentralOk(t.links, c);
    EnsureKeeps(t, c, serving, now);
    var (e, t1) := if c in t.links.byCentral then (Some(t.links.byCentral[c]), t) else Ensure(t, c, serving, now);
    if e.Some? {
      HeardKeeps(t1, c, e.value, now);
      EmitKeeps(Heard(t1, c, e.value, now), FragmentReceived(e.value));
    }
  }

  lemma SubscribedKeeps(t: Tables, c: CentralId, now: nat)
    requires Inv(t)
    ensures Inv(Subscribed(t, c, now))
  {
    assert CentralOk(t.links, c);
    if c !in t.links.byCentral {
      EnsureKeeps(t, c, true, now);
    } else if t.links.byCentral[c] in t.closing {
      RetireKeeps(t, t.links.byCentral[c], true);
      EnsureKeeps(RetireClosing(t, t.links.byCentral[c], true), c, true, now);
    } else {
      FewerChecks(t, t.checks - {c});
      EndKeeps(t, c);
      EnsureKeeps(Emit(t.(checks := t.checks - {c}, links := Without(t.links, t.links.byCentral[c])), Disconnected(t.links.byCentral[c])),
                  c, true, now);
    }
  }

  lemma FewerChecks(t: Tables, checks: map<CentralId, Check>)
    requires Inv(t) && forall c :: c in checks ==> c in t.checks && checks[c] == t.checks[c]
    ensures Inv(t.(checks := checks))
  {
    forall n: nat ensures TraceOk(t.(checks := checks), n) { assert TraceOk(t, n); }
  }

  lemma UnsubscribedKeeps(t: Tables, c: CentralId, now: nat)
    requires Inv(t)
    ensures Inv(Unsubscribed(t, c, now))
  {
    assert CentralOk(t.links, c);
    if c in t.links.byCentral {
      var e := t.links.byCentral[c];
      if e in t.closing {
        RetireKeeps(t, e, false);
      } else {
        forall n: nat ensures TraceOk(Unsubscribed(t, c, now), n) { assert TraceOk(t, n); }
      }
    }
  }

  // A check that is still pending always finds the endpoint it was made for.
  lemma CheckKeeps(t: Tables, c: CentralId)
    requires Inv(t)
    ensures Inv(CheckFires(t, c))
    ensures c in t.checks ==>
              Get(t.links.byCentral, c) == Some(t.checks[c].endpoint) && c !in CheckFires(t, c).checks
  {
    if c in t.checks {
      FewerChecks(t, t.checks - {c});
      EndKeeps(t, c);
    }
  }

  lemma MarkedKeeps(t: Tables, e: nat)
    requires Inv(t) && e in t.links.byEndpoint
    ensures Inv(Marked(t, e))
  {
    assert LinkOk(t.links, t.next, e);
    var t' := Marked(t, e);
    forall c | c in t'.checks ensures t'.checks[c].endpoint != e { assert CentralOk(t.links, c); }
    forall n: nat ensures TraceOk(t', n) { assert TraceOk(t, n); }
  }

  // ---------- starting over ----------

  lemma Associate(a: seq<Event>, b: seq<Event>, e: Event)
    ensures a + (b + [e]) == (a + b) + [e]
  {
  }

  lemma {:induction false} OwnOfMany(trace: seq<Event>, es: seq<Event>, n: nat)
    ensures Own(trace + es, n) == Own(trace, n) + Own(es, n)
  {
    if es == [] {
      assert trace + es == trace;
    } else {
      var front, e := es[..|es| - 1], es[|es| - 1];
      OwnOfMany(trace, front, n);
      Associate(trace, front, e);
      assert es == front + [e];
      OwnEmit(trace + front, e, n);
      Associate(Own(trace, n), Own(front, n), e);
    }
  }

  lemma {:induction false} FarewellOnce(order: seq<nat>, k: nat, n: nat)
    requires k <= |order| && forall i, j :: 0 <= i < j < |order| ==> order[i] != order[j]
    ensures Own(Farewells(order)[..k], n) == if n in order[..k] then [Disconnected(n)] else []
  {
    if k != 0 {
      FarewellOnce(order, k - 1, n);
      var es := Farewells(order);
      assert es[..k] == es[..k - 1] + [es[k - 1]] && order[..k] == order[..k - 1] + [order[k - 1]];
      OwnEmit(es[..k - 1], es[k - 1], n);
      assert n in order[..k - 1] ==> order[k - 1] != n;
    }
  }

  lemma ListenTrace(t: Tables, order: seq<nat>, n: nat)
    requires TraceOk(t, n) && Lists(t, order) && LinkOk(t.links, t.next, n)
    ensures TraceOk(Listen(t, order), n)
  {
    var es := Farewells(order);
    FarewellOnce(order, |order|, n);
    assert es[..|order|] == es && order[..|order|] == order;
    OwnOfMany(t.trace, es, n);
    assert n in order <==> n in t.links.generations;
    assert Own(t.trace, n) + [] == Own(t.trace, n);
  }

  lemma ListenKeeps(t: Tables, order: seq<nat>)
    requires Inv(t) && Lists(t, order)
    ensures Inv(Listen(t, order))
  {
    forall n: nat ensures TraceOk(Listen(t, order), n) {
      assert TraceOk(t, n) && LinkOk(t.links, t.next, n);
      ListenTrace(t, order, n);
    }
  }

  lemma CloseKeeps(t: Tables, e: nat, requested: Option<nat>, serving: bool, order: seq<nat>)
    requires Inv(t) && Lists(t, order)
    ensures Inv(Close(t, e, requested, serving, order))
  {
    if e in t.links.byEndpoint {
      MarkedKeeps(t, e);
      ListenKeeps(Marked(t, e), order);
    }
  }

  lemma StoppedKeeps(t: Tables)
    requires Inv(t)
    ensures Inv(Stopped(t))
  {
    forall n: nat ensures TraceOk(Stopped(t), n) { assert TraceOk(t, n); }
  }

  // ---------- submitting ----------

  lemma RetrySetKeeps(t: Tables, retry: set<nat>)
    requires Inv(t)
    ensures Inv(t.(retry := retry))
  {
    forall n: nat ensures TraceOk(t.(retry := retry), n) { assert TraceOk(t, n); }
  }

  lemma SubmitKeeps(t: Tables, e: nat, requested: Option<nat>, accepted: bool, now: nat)
    requires Inv(t)
    ensures Inv(Submit(t, e, requested, accepted, now).1)
  {
    if e in t.links.byEndpoint {
      HeardKeeps(t, t.links.byEndpoint[e], e, now);
      RetrySetKeeps(Heard(t, t.links.byEndpoint[e], e, now), t.retry - {e});
      RetrySetKeeps(t, t.retry + {e});
    }
  }

  lemma RetryKeeps(t: Tables, e: nat)
    requires Inv(t)
    ensures Inv(RetryFires(t, e))
  {
    if e in t.links.generations {
      assert LinkOk(t.links, t.next, e);
      RetrySetKeeps(t, t.retry - {e});
      EmitKeeps(t.(retry := t.retry - {e}), Writable(e));
    }
  }

  // ---------- every run ----------

  lemma NextKeeps(t: Tables, s: Step)
    requires Inv(t)
    ensures Inv(Next(t, s))
  {
    match s
    case Writes(c, serving, now) => FragmentKeeps(t, c, serving, now);
    case Subscribes(c, now) => SubscribedKeeps(t, c, now);
    case Unsubscribes(c, now) => UnsubscribedKeeps(t, c, now);
    case Checks(c) => CheckKeeps(t, c);
    case CleansUp(e) => RetireKeeps(t, e, false);
    case Closes(e, requested, serving, order) => if Lists(t, order) { CloseKeeps(t, e, requested, serving, order); }
    case Listens(order) => if Lists(t, order) { ListenKeeps(t, order); }
    case Stops => StoppedKeeps(t);
    case Submits(e, requested, accepted, now) => SubmitKeeps(t, e, requested, accepted, now);
    case Retries(e) => RetryKeeps(t, e);
  }

  lemma {:induction false} RunKeeps(steps: seq<Step>)
    ensures Inv(Run(steps))
  {
    if steps == [] {
      forall n: nat ensures TraceOk(EMPTY, n) { assert Own([], n) == []; }
    } else {
      RunKeeps(steps[..|steps| - 1]);
      NextKeeps(Run(steps[..|steps| - 1]), steps[|steps| - 1]);
    }
  }

  // In every run the two link tables are inverse and share their key set with the
  // generation, activity and central tables; closing marks are on live endpoints only.
  lemma TablesAgree(steps: seq<Step>, n: nat, c: CentralId)
    ensures var t := Run(steps);
            && (n in t.links.byEndpoint && t.links.byEndpoint[n] == c <==> c in t.links.byCentral && t.links.byCentral[c] == n)
            && (n in t.links.byEndpoint <==> n in t.links.generations) && (n in t.links.byEndpoint <==> n in t.links.activity)
            && (c in t.links.byCentral <==> c in t.links.centrals)
            && (n in t.closing ==> n in t.links.byEndpoint) && (n in t.links.byEndpoint ==> n < t.next)
  {
    RunKeeps(steps);
    assert LinkOk(Run(steps).links, Run(steps).next, n) && CentralOk(Run(steps).links, c);
  }

  // Every endpoint's trace is connected, then fragments and writables, then at most one
  // disconnected.
  lemma TraceWellFormed(steps: seq<Step>, n: nat)
    ensures WellFormed(Own(Run(steps).trace, n))
  {
    RunKeeps(steps);
    assert TraceOk(Run(steps), n);
  }

  // A close with an old generation changes nothing.
  lemma StaleCloseIsIgnored(t: Tables, e: nat, g: nat, serving: bool, order: seq<nat>)
    requires e in t.links.generations && t.links.generations[e] != g
    ensures Close(t, e, Some(g), serving, order) == t
  {
  }

  // ---------- no lost wake-up ----------

  predicate Refused(t: Tables, e: nat, requested: Option<nat>) {
    Submit(t, e, requested, false, 0).0 == Ok(B.TemporarilyUnavailable)
  }

  // An armed timer of a live endpoint stays armed until it fires, a later fragment is
  // accepted, or the endpoint closes or ends; when it fires the sender is woken.
  lemma ArmedUntilWoken(steps: seq<Step>, s: Step, e: nat)
    ensures var t := Run(steps);
            e in t.retry && e in t.links.generations && e !in t.closing ==>
              var t' := Next(t, s);
              || e in t'.retry
              || e !in t'.links.generations
              || (s.Retries? && t'.trace == t.trace + [Writable(e)])
              || (s.Submits? && s.endpoint == e && s.accepted)
  {
    RunKeeps(steps);
    var t := Run(steps);
    if e in t.retry && e in t.links.generations && e !in t.closing {
      match s
      case Writes(c, serving, now) => EnsureRetry(t, c, serving, now, e);
      case Subscribes(c, now) => SubscribeRetry(t, c, now, e);
      case _ =>
    }
  }

  // A step that ends the wait for a retry: the sender is woken, a fragment is accepted, or
  // the endpoint closes or ends.
  ghost predicate EndsWait(steps: seq<Step>, i: nat, e: nat)
    requires i < |steps|
  {
    var t, t', s := Run(steps[..i]), Next(Run(steps[..i]), steps[i]), steps[i];
    || (s.Retries? && t'.trace == t.trace + [Writable(e)])
    || (s.Submits? && s.endpoint == e && s.accepted)
    || e in t'.closing || e !in t'.links.generations
  }

  // In every run, a refused fragment leaves the retry armed until the sender is woken, a
  // later fragment is accepted, or the endpoint closes or ends.
  lemma {:induction false} RefusalIsAnswered(past: seq<Step>, e: nat, requested: Option<nat>, later: seq<Step>)
    requires Refused(Run(past), e, requested)
    ensures var steps := past + [Submits(e, requested, false, 0)] + later;
            || (e in Run(steps).retry && e in Run(steps).links.generations && e !in Run(steps).closing)
            || exists i :: |past| <= i < |steps| && EndsWait(steps, i, e)
  {
    var refused := past + [Submits(e, requested, false, 0)];
    var steps := refused + later;
    if later == [] {
      assert steps == refused && refused[..|past|] == past;
      assert EndsWait(steps, |past|, e) || (e in Run(steps).retry && e in Run(steps).links.generations && e !in Run(steps).closing);
    } else {
      var n := |steps| - 1;
      var front := later[..|later| - 1];
      assert steps[..n] == refused + front;
      RefusalIsAnswered(past, e, requested, front);
      if exists i :: |past| <= i < n && EndsWait(steps[..n], i, e) {
        var i :| |past| <= i < n && EndsWait(steps[..n], i, e);
        assert steps[..n][..i] == steps[..i];
        assert EndsWait(steps, i, e);
      } else {
        ArmedUntilWoken(steps[..n], steps[n], e);
        assert Run(steps) == Next(Run(steps[..n]), steps[n]);
        assert EndsWait(steps, n, e) || (e in Run(steps).retry && e in Run(steps).links.generations && e !in Run(steps).closing);
      }
    }
  }

  lemma EnsureRetry(t: Tables, c: CentralId, serving: bool, now: nat, e: nat)
    requires e in t.retry && e !in t.closing
    ensures e in Ensure(t, c, serving, now).1.retry && e in FragmentWritten(t, c, serving, now).retry
  {
  }

  lemma SubscribeRetry(t: Tables, c: CentralId, now: nat, e: nat)
    requires e in t.retry && e !in t.closing
    ensures e in Subscribed(t, c, now).retry
  {
  }
}
