/**
 Runs of one coordinator: any interleaving of admissions, final-hop results, bulk
 terminations and authority loss. `onWire` holds the hops whose forward action was issued
 and that have no result yet, whether or not the submission itself succeeded; a result is
 only ever reported for such a hop, or for a relay that has already been released.
 */
module RelayRuns {
  import opened Types
  import opened RelayTable
  import opened RelayController

  datatype Event =
    | Admit(candidate: Relay, sourceHop: nat, members: set<PeerId>, ready: bool)
    | HopSubmitted(key: MessageKey)
    | HopAcknowledged(key: MessageKey)
    | HopFailed(key: MessageKey, status: RelayStatus)
    | DestinationGone(destination: PeerId)
    | AuthorityLost

  datatype State = State(
    relays: seq<Relay>,
    onWire: set<MessageKey>,
    admitted: seq<Relay>,    // every relay ever admitted, in admission order
    forwarded: seq<Relay>)   // every relay ever put on the wire for the first time, in order

  const Start := State([], {}, [], [])

  function KeySet(relays: seq<Relay>): set<MessageKey> { set r | r in relays :: r.Key() }

  function ResultOf(limits: Limits, relays: seq<Relay>, e: Event): Outcome
    requires e.HopSubmitted? || e.HopAcknowledged? || e.HopFailed?
  {
    match e
    case HopSubmitted(key) => Submitted(limits, relays, key)
    case HopAcknowledged(key) => Acknowledged(limits, relays, key)
    case HopFailed(key, status) => FinalHopFailure(limits, relays, key, status)
  }

  // The result matches the relay's delivery mode, as the connections report it.
  predicate Reportable(st: State, e: Event)
    requires e.HopSubmitted? || e.HopAcknowledged? || e.HopFailed?
  {
    && (e.HopFailed? ==> e.status != SentToDestinationTransport)
    && match Find(st.relays, e.key)
       case None => true
       case Some(r) =>
         && e.key in st.onWire
         && (e.HopSubmitted? ==> r.op.mode == ReliableOrdered)
         && (e.HopAcknowledged? ==> r.op.mode == ReliableAcked)
  }

  function Step(limits: Limits, st: State, e: Event): State {
    match e
    case Admit(candidate, sourceHop, members, ready) =>
      var outcome := Admitted(limits, st.relays, candidate, sourceHop, members, ready);
      if outcome.relays == st.relays then st
      else if outcome.result.Ok? && outcome.result.value.forward.Some? then
        State(outcome.relays, st.onWire + {candidate.Key()}, st.admitted + [candidate], st.forwarded + [candidate])
      else st.(relays := outcome.relays, admitted := st.admitted + [candidate])
    case DestinationGone(d) =>
      st.(relays := Outside(st.relays, OnlyTo(d)), onWire := st.onWire - KeySet(Inside(st.relays, OnlyTo(d))))
    case AuthorityLost =>
      st.(relays := Outside(st.relays, Every), onWire := st.onWire - KeySet(Inside(st.relays, Every)))
    case _ =>
      if !Reportable(st, e) then st
      else
        var outcome := ResultOf(limits, st.relays, e);
        var next := if outcome.result.Ok? then outcome.result.value.forward else None;
        State(outcome.relays,
              st.onWire - {e.key} + (if next.Some? then {next.value.Key()} else {}),
              st.admitted,
              if next.Some? then st.forwarded + [next.value] else st.forwarded)
  }

  function Run(limits: Limits, events: seq<Event>): State {
    if events == [] then Start
    else Step(limits, Run(limits, events[..|events| - 1]), events[|events| - 1])
  }

  // ---------- the invariant ----------

  // `a` is a subsequence of `b`.
  predicate Sub(a: seq<Relay>, b: seq<Relay>)
    decreases |b|
  {
    a == [] ||
    (b != [] &&
     if a[|a| - 1] == b[|b| - 1] then Sub(a[..|a| - 1], b[..|b| - 1]) else Sub(a, b[..|b| - 1]))
  }

  function Tail(relays: seq<Relay>): seq<Relay> { if relays == [] then [] else relays[1..] }

  // What went out for a pair, followed by what still waits, was admitted in that order.
  predicate PairInOrder(st: State, s: PeerId, d: PeerId) {
    Sub(OfPair(st.forwarded, s, d) + Tail(OfPair(st.relays, s, d)), OfPair(st.admitted, s, d))
  }

  // Exactly the oldest retained relay of each pair is on the wire.
  ghost predicate HeadsOnWire(relays: seq<Relay>, onWire: set<MessageKey>) {
    && onWire <= KeySet(relays)
    && (forall r :: r in relays ==> (r.Key() in onWire <==> IsHead(relays, r)))
  }

  ghost predicate Inv(limits: Limits, st: State) {
    && UniqueKeys(st.relays)
    && WithinLimits(st.relays, limits)
    && HeadsOnWire(st.relays, st.onWire)
    && (forall s, d :: PairInOrder(st, s, d))
  }

  // ---------- subsequences ----------

  lemma SubAppend(a: seq<Relay>, b: seq<Relay>, x: Relay)
    requires Sub(a, b)
    ensures Sub(a + [x], b + [x])
  {
    assert (a + [x])[..|a|] == a && (b + [x])[..|b|] == b;
  }

  lemma {:induction false} SubShrink(a: seq<Relay>, b: seq<Relay>)
    requires a != [] && Sub(a, b)
    ensures Sub(a[..|a| - 1], b)
    decreases |b|, 0
  {
    var shorter, front := a[..|a| - 1], b[..|b| - 1];
    assert b == front + [b[|b| - 1]];
    if a[|a| - 1] != b[|b| - 1] {
      SubShrink(a, front);
    }
    SubGrow(shorter, front, b[|b| - 1]);
  }

  lemma {:induction false} SubGrow(a: seq<Relay>, b: seq<Relay>, x: Relay)
    requires Sub(a, b)
    ensures Sub(a, b + [x])
    decreases |b|, 1
  {
    assert (b + [x])[..|b|] == b;
    if a != [] && a[|a| - 1] == x {
      SubShrink(a, b);
    }
  }

  lemma {:induction false} SubPrefix(a: seq<Relay>, c: seq<Relay>, b: seq<Relay>)
    requires Sub(a + c, b)
    ensures Sub(a, b)
  {
    if c == [] {
      assert a + c == a;
    } else {
      SubShrink(a + c, b);
      assert (a + c)[..|a + c| - 1] == a + c[..|c| - 1];
      SubPrefix(a, c[..|c| - 1], b);
    }
  }

  // ---------- admission ----------

  lemma AdmitKeeps(limits: Limits, st: State, e: Event)
    requires Inv(limits, st) && e.Admit?
    ensures Inv(limits, Step(limits, st, e))
  {
    AdmitStep(limits, st, e);
    if Step(limits, st, e) != st {
      AppendedKeeps(limits, st, e.candidate);
      AdmitHeads(st.relays, st.onWire, e.candidate);
    }
  }

  lemma AdmitStep(limits: Limits, st: State, e: Event)
    requires e.Admit?
    ensures var x := e.candidate;
            Step(limits, st, e) == st ||
            (&& Step(limits, st, e) == Appending(st, x)
             && Find(st.relays, x.Key()).None?
             && Bytes(st.relays, x.op.destination) + x.reserved <= limits.maxBytes
             && Messages(st.relays, x.op.destination) + 1 <= limits.maxMessages)
  {
    AdmissionEffect(limits, st.relays, e);
  }

  // The state after a relay was appended.
  function Appending(st: State, x: Relay): State {
    if OfPair(st.relays, x.op.source, x.op.destination) == []
    then State(st.relays + [x], st.onWire + {x.Key()}, st.admitted + [x], st.forwarded + [x])
    else st.(relays := st.relays + [x], admitted := st.admitted + [x])
  }

  lemma AppendedKeeps(limits: Limits, st: State, x: Relay)
    requires WithinLimits(st.relays, limits) && forall s, d :: PairInOrder(st, s, d)
    requires Bytes(st.relays, x.op.destination) + x.reserved <= limits.maxBytes
    requires Messages(st.relays, x.op.destination) + 1 <= limits.maxMessages
    ensures WithinLimits(st.relays + [x], limits)
    ensures forall s, d :: PairInOrder(Appending(st, x), s, d)
  {
    forall d ensures Bytes(st.relays + [x], d) <= limits.maxBytes && Messages(st.relays + [x], d) <= limits.maxMessages {
      SumsAppended(st.relays, x, d);
    }
    forall s, d ensures PairInOrder(Appending(st, x), s, d) {
      AdmitOrder(st, x, s, d);
    }
  }

  // An admission changes nothing, or appends its candidate within the caps.
  lemma AdmissionEffect(limits: Limits, relays: seq<Relay>, e: Event)
    requires e.Admit?
    ensures var x := e.candidate;
            var outcome := Admitted(limits, relays, x, e.sourceHop, e.members, e.ready);
            outcome.relays == relays ||
            (&& outcome.relays == relays + [x]
             && Find(relays, x.Key()).None?
             && Bytes(relays, x.op.destination) + x.reserved <= limits.maxBytes
             && Messages(relays, x.op.destination) + 1 <= limits.maxMessages
             && outcome.result.Ok?
             && outcome.result.value.forward
                == if OfPair(relays, x.op.source, x.op.destination) == [] then Some(x) else None)
  {
  }

  lemma AdmitHeads(relays: seq<Relay>, onWire: set<MessageKey>, x: Relay)
    requires UniqueKeys(relays) && HeadsOnWire(relays, onWire) && Find(relays, x.Key()).None?
    ensures UniqueKeys(relays + [x])
    ensures HeadsOnWire(relays + [x],
              if OfPair(relays, x.op.source, x.op.destination) == [] then onWire + {x.Key()} else onWire)
  {
    var after := relays + [x];
    var wire := if OfPair(relays, x.op.source, x.op.destination) == [] then onWire + {x.Key()} else onWire;
    assert forall r :: r in relays ==> r.Key() != x.Key();
    forall r | r in after ensures r.Key() in wire <==> IsHead(after, r) {
      AdmitHead(relays, onWire, x, r);
    }
    forall key | key in wire ensures key in KeySet(after) {
      if key != x.Key() {
        assert key in KeySet(relays);
        var r :| r in relays && r.Key() == key;
        assert r in after;
      } else {
        assert x in after;
      }
    }
  }

  lemma AdmitHead(relays: seq<Relay>, onWire: set<MessageKey>, x: Relay, r: Relay)
    requires HeadsOnWire(relays, onWire) && Find(relays, x.Key()).None? && r in relays + [x]
    requires r in relays ==> r.Key() != x.Key()
    ensures var wire := if OfPair(relays, x.op.source, x.op.destination) == [] then onWire + {x.Key()} else onWire;
            r.Key() in wire <==> IsHead(relays + [x], r)
  {
    NotOnWire(relays, onWire, x.Key());
    PairAppended(relays, x, r.op.source, r.op.destination);
    OfPairMembers(relays, r.op.source, r.op.destination);
  }

  lemma AdmitOrder(st: State, x: Relay, s: PeerId, d: PeerId)
    requires PairInOrder(st, s, d)
    ensures var immediate := OfPair(st.relays, x.op.source, x.op.destination) == [];
            Sub(OfPair(if immediate then st.forwarded + [x] else st.forwarded, s, d) + Tail(OfPair(st.relays + [x], s, d)),
                OfPair(st.admitted + [x], s, d))
  {
    PairAppended(st.relays, x, s, d);
    PairAppended(st.admitted, x, s, d);
    PairAppended(st.forwarded, x, s, d);
    if x.Between(s, d) {
      OrderOnAdmit(OfPair(st.forwarded, s, d), OfPair(st.relays, s, d), OfPair(st.admitted, s, d), x);
    }
  }

  lemma OrderOnAdmit(out: seq<Relay>, waiting: seq<Relay>, admitted: seq<Relay>, x: Relay)
    requires Sub(out + Tail(waiting), admitted)
    ensures Sub((if waiting == [] then out + [x] else out) + Tail(waiting + [x]), admitted + [x])
  {
    SubAppend(out + Tail(waiting), admitted, x);
    if waiting == [] {
      assert (out + [x]) + Tail(waiting + [x]) == out + Tail(waiting) + [x];
    } else {
      assert Tail(waiting + [x]) == Tail(waiting) + [x];
      assert out + Tail(waiting + [x]) == out + Tail(waiting) + [x];
    }
  }

  // ---------- a final-hop result ----------

  // Releasing the head of a pair leaves the rest of the pair, in order.
  lemma ReleaseHead(relays: seq<Relay>, r: Relay)
    requires UniqueKeys(relays) && r in relays && IsHead(relays, r)
    ensures OfPair(Without(relays, r.Key()), r.op.source, r.op.destination)
            == Tail(OfPair(relays, r.op.source, r.op.destination))
    ensures forall s, d :: !r.Between(s, d) ==> OfPair(Without(relays, r.Key()), s, d) == OfPair(relays, s, d)
  {
    var s, d := r.op.source, r.op.destination;
    var pair := OfPair(relays, s, d);
    FindMember(relays, r);
    WithoutOfPair(relays, r.Key(), s, d);
    OfPairUnique(relays, s, d);
    assert pair == [] + [r] + pair[1..];
    WithoutMiddle([], r, pair[1..]);
    forall s', d' | !r.Between(s', d') ensures OfPair(Without(relays, r.Key()), s', d') == OfPair(relays, s', d') {
      OtherPairUntouched(relays, r.Key(), s', d');
    }
  }

  lemma FindMember(relays: seq<Relay>, r: Relay)
    requires UniqueKeys(relays) && r in relays
    ensures Find(relays, r.Key()) == Some(r)
  {
  }

  lemma ResultHeads(relays: seq<Relay>, onWire: set<MessageKey>, r: Relay)
    requires UniqueKeys(relays) && HeadsOnWire(relays, onWire) && r in relays && r.Key() in onWire
    ensures var after := Without(relays, r.Key());
            var next := Head(after, r.op.source, r.op.destination);
            HeadsOnWire(after, onWire - {r.Key()} + (if next.Some? then {next.value.Key()} else {}))
  {
    var after := Without(relays, r.Key());
    var next := Head(after, r.op.source, r.op.destination);
    var wire := onWire - {r.Key()} + (if next.Some? then {next.value.Key()} else {});
    WithoutMembers(relays, r.Key());
    OfPairMembers(after, r.op.source, r.op.destination);
    forall q | q in after ensures q.Key() in wire <==> IsHead(after, q) {
      ResultHead(relays, onWire, r, q);
    }
    forall key | key in wire ensures key in KeySet(after) {
      if next.Some? && key == next.value.Key() {
        assert next.value in after;
      } else {
        assert key in KeySet(relays);
        var q :| q in relays && q.Key() == key;
        assert q in after;
      }
    }
  }

  lemma ResultHead(relays: seq<Relay>, onWire: set<MessageKey>, r: Relay, q: Relay)
    requires UniqueKeys(relays) && HeadsOnWire(relays, onWire) && r in relays && r.Key() in onWire
    requires q in relays && q.Key() != r.Key()
    ensures var after := Without(relays, r.Key());
            var next := Head(after, r.op.source, r.op.destination);
            q.Key() in onWire - {r.Key()} + (if next.Some? then {next.value.Key()} else {}) <==> IsHead(after, q)
  {
    var after := Without(relays, r.Key());
    var s, d := r.op.source, r.op.destination;
    ReleaseHead(relays, r);
    if q.Between(s, d) {
      ResultHeadOfPair(relays, r, q);
    } else {
      assert IsHead(after, q) <==> IsHead(relays, q);
      NextIsOfPair(relays, r);
    }
  }

  // The next head of the pair, if any, was retained before and belongs to the pair.
  lemma NextIsOfPair(relays: seq<Relay>, r: Relay)
    requires UniqueKeys(relays)
    ensures var next := Head(Without(relays, r.Key()), r.op.source, r.op.destination);
            next.Some? ==> next.value in relays && next.value.Between(r.op.source, r.op.destination)
  {
    OfPairMembers(Without(relays, r.Key()), r.op.source, r.op.destination);
    WithoutMembers(relays, r.Key());
  }

  lemma ResultHeadOfPair(relays: seq<Relay>, r: Relay, q: Relay)
    requires UniqueKeys(relays) && r in relays && IsHead(relays, r) && q in relays && q.Key() != r.Key()
    requires q.Between(r.op.source, r.op.destination)
    ensures !IsHead(relays, q)
    ensures var after := Without(relays, r.Key());
            var next := Head(after, r.op.source, r.op.destination);
            next.Some? && (q.Key() == next.value.Key() <==> IsHead(after, q))
  {
    var after := Without(relays, r.Key());
    OfPairMembers(after, r.op.source, r.op.destination);
    WithoutMembers(relays, r.Key());
    NextIsOfPair(relays, r);
  }

  lemma ResultOrder(st: State, r: Relay, s: PeerId, d: PeerId)
    requires UniqueKeys(st.relays) && r in st.relays && IsHead(st.relays, r) && PairInOrder(st, s, d)
    ensures var after := Without(st.relays, r.Key());
            var next := Head(after, r.op.source, r.op.destination);
            Sub(OfPair(if next.Some? then st.forwarded + [next.value] else st.forwarded, s, d) + Tail(OfPair(after, s, d)),
                OfPair(st.admitted, s, d))
  {
    var after := Without(st.relays, r.Key());
    var next := Head(after, r.op.source, r.op.destination);
    ReleaseHead(st.relays, r);
    if next.Some? {
      OfPairMembers(after, r.op.source, r.op.destination);
      assert next.value.Between(r.op.source, r.op.destination);
      PairAppended(st.forwarded, next.value, s, d);
    }
    if r.Between(s, d) {
      OrderOnRelease(OfPair(st.forwarded, s, d), OfPair(after, s, d), OfPair(st.admitted, s, d));
    } else {
      assert OfPair(after, s, d) == OfPair(st.relays, s, d);
    }
  }

  lemma OrderOnRelease(out: seq<Relay>, rest: seq<Relay>, admitted: seq<Relay>)
    requires Sub(out + rest, admitted)
    ensures Sub((if rest == [] then out else out + [rest[0]]) + Tail(rest), admitted)
  {
    assert (if rest == [] then out else out + [rest[0]]) + Tail(rest) == out + rest;
  }

  lemma ResultKeeps(limits: Limits, st: State, e: Event)
    requires Inv(limits, st) && (e.HopSubmitted? || e.HopAcknowledged? || e.HopFailed?)
    ensures Inv(limits, Step(limits, st, e))
  {
    if Reportable(st, e) {
      ResultEffect(limits, st, e);
      if Find(st.relays, e.key).Some? {
        var r := Find(st.relays, e.key).value;
        WithoutUnique(st.relays, e.key);
        ReleaseWithinLimits(st.relays, limits, e.key);
        ResultHeads(st.relays, st.onWire, r);
        ResultOrders(st, r);
      } else {
        NotOnWire(st.relays, st.onWire, e.key);
        assert Step(limits, st, e) == st;
      }
    }
  }

  lemma ResultOrders(st: State, r: Relay)
    requires UniqueKeys(st.relays) && r in st.relays && IsHead(st.relays, r)
    requires forall s, d :: PairInOrder(st, s, d)
    ensures var after := Without(st.relays, r.Key());
            var next := Head(after, r.op.source, r.op.destination);
            var forwarded := if next.Some? then st.forwarded + [next.value] else st.forwarded;
            forall s, d, wire :: PairInOrder(State(after, wire, st.admitted, forwarded), s, d)
  {
    var after := Without(st.relays, r.Key());
    var next := Head(after, r.op.source, r.op.destination);
    var forwarded := if next.Some? then st.forwarded + [next.value] else st.forwarded;
    forall s, d, wire ensures PairInOrder(State(after, wire, st.admitted, forwarded), s, d) {
      assert PairInOrder(st, s, d);
      ResultOrder(st, r, s, d);
    }
  }

  lemma ReleaseWithinLimits(relays: seq<Relay>, limits: Limits, key: MessageKey)
    requires UniqueKeys(relays) && WithinLimits(relays, limits) && Find(relays, key).Some?
    ensures WithinLimits(Without(relays, key), limits)
  {
    forall d ensures Bytes(Without(relays, key), d) <= limits.maxBytes
             ensures Messages(Without(relays, key), d) <= limits.maxMessages {
      WithoutReleases(relays, key, d);
    }
  }

  lemma ResultEffect(limits: Limits, st: State, e: Event)
    requires (e.HopSubmitted? || e.HopAcknowledged? || e.HopFailed?) && Reportable(st, e)
    ensures var outcome := ResultOf(limits, st.relays, e);
            && outcome.result.Ok?
            && match Find(st.relays, e.key)
               case None => outcome.relays == st.relays && outcome.result.value == Actions()
               case Some(r) =>
                 && outcome.relays == Without(st.relays, e.key)
                 && outcome.result.value.forward == Head(Without(st.relays, e.key), r.op.source, r.op.destination)
  {
  }

  lemma NotOnWire(relays: seq<Relay>, onWire: set<MessageKey>, key: MessageKey)
    requires HeadsOnWire(relays, onWire) && Find(relays, key).None?
    ensures key !in onWire
  {
    assert key in KeySet(relays) ==> Find(relays, key).Some?;
  }

  // ---------- bulk termination ----------

  lemma {:induction false} OutsideMembers(relays: seq<Relay>, scope: Scope)
    ensures forall r :: r in Outside(relays, scope) <==> r in relays && !r.In(scope)
    ensures forall r :: r in Inside(relays, scope) <==> r in relays && r.In(scope)
  {
    if relays != [] {
      var rest := relays[..|relays| - 1];
      assert relays == rest + [relays[|relays| - 1]];
      OutsideMembers(rest, scope);
    }
  }

  lemma {:induction false} OutsideUnique(relays: seq<Relay>, scope: Scope)
    requires UniqueKeys(relays)
    ensures UniqueKeys(Outside(relays, scope))
  {
    if relays != [] {
      var rest, last := relays[..|relays| - 1], relays[|relays| - 1];
      OutsideUnique(rest, scope);
      OutsideMembers(rest, scope);
      forall i | 0 <= i < |Outside(rest, scope)| ensures Outside(rest, scope)[i].Key() != last.Key() {
        assert Outside(rest, scope)[i] in rest;
      }
    }
  }

  lemma {:induction false} OutsideReserves(relays: seq<Relay>, scope: Scope, d: PeerId)
    ensures Bytes(Outside(relays, scope), d) == if scope.Every? || scope.destination == d then 0 else Bytes(relays, d)
    ensures Messages(Outside(relays, scope), d) == if scope.Every? || scope.destination == d then 0 else Messages(relays, d)
  {
    if relays != [] {
      var rest := relays[..|relays| - 1];
      OutsideReserves(rest, scope, d);
      SumsAppended(Outside(rest, scope), relays[|relays| - 1], d);
    }
  }

  lemma {:induction false} OutsideOfPair(relays: seq<Relay>, scope: Scope, s: PeerId, d: PeerId)
    ensures OfPair(Outside(relays, scope), s, d)
            == if scope.Every? || scope.destination == d then [] else OfPair(relays, s, d)
  {
    if relays != [] {
      var rest := relays[..|relays| - 1];
      OutsideOfPair(rest, scope, s, d);
      PairAppended(Outside(rest, scope), relays[|relays| - 1], s, d);
    }
  }

  lemma BulkHeads(relays: seq<Relay>, onWire: set<MessageKey>, scope: Scope)
    requires UniqueKeys(relays) && HeadsOnWire(relays, onWire)
    ensures HeadsOnWire(Outside(relays, scope), onWire - KeySet(Inside(relays, scope)))
  {
    OutsideMembers(relays, scope);
    var after := Outside(relays, scope);
    forall key | key in onWire - KeySet(Inside(relays, scope)) ensures key in KeySet(after) {
      var r :| r in relays && r.Key() == key;
      assert r in after;
    }
    forall r | r in after
      ensures r.Key() in onWire - KeySet(Inside(relays, scope)) <==> IsHead(after, r)
    {
      OutsideOfPair(relays, scope, r.op.source, r.op.destination);
      forall q | q in Inside(relays, scope) ensures q.Key() != r.Key() {
        assert q in relays && r in relays && q != r;
      }
    }
  }

  lemma BulkKeeps(limits: Limits, st: State, scope: Scope)
    requires Inv(limits, st)
    ensures Inv(limits, st.(relays := Outside(st.relays, scope), onWire := st.onWire - KeySet(Inside(st.relays, scope))))
  {
    var next := st.(relays := Outside(st.relays, scope), onWire := st.onWire - KeySet(Inside(st.relays, scope)));
    OutsideUnique(st.relays, scope);
    BulkHeads(st.relays, st.onWire, scope);
    forall d ensures Bytes(next.relays, d) <= limits.maxBytes && Messages(next.relays, d) <= limits.maxMessages {
      OutsideReserves(st.relays, scope, d);
    }
    forall s, d ensures PairInOrder(next, s, d) {
      OutsideOfPair(st.relays, scope, s, d);
      var out := OfPair(st.forwarded, s, d);
      assert PairInOrder(st, s, d);
      SubPrefix(out, Tail(OfPair(st.relays, s, d)), OfPair(st.admitted, s, d));
      assert out + [] == out;
    }
  }

  // ---------- the theorems ----------

  lemma {:induction false} EveryRunKeepsInv(limits: Limits, events: seq<Event>)
    ensures Inv(limits, Run(limits, events))
  {
    if events == [] {
    } else {
      var before, e := Run(limits, events[..|events| - 1]), events[|events| - 1];
      EveryRunKeepsInv(limits, events[..|events| - 1]);
      match e
      case Admit(_, _, _, _) => AdmitKeeps(limits, before, e);
      case DestinationGone(d) => BulkKeeps(limits, before, OnlyTo(d));
      case AuthorityLost => BulkKeeps(limits, before, Every);
      case _ => ResultKeeps(limits, before, e);
    }
  }

  // In every run: reservations never exceed the caps; a pair has at most one final hop
  // on the wire, it is the pair's oldest retained relay, and a pair with a retained
  // relay always has one; and the final hops of a pair went out in admission order.
  lemma FinalHopsInAdmissionOrder(limits: Limits, events: seq<Event>, s: PeerId, d: PeerId)
    ensures var st := Run(limits, events);
            && Bytes(st.relays, d) <= limits.maxBytes && Messages(st.relays, d) <= limits.maxMessages
            && (forall r :: r in st.relays && r.Between(s, d) ==>
                  (r.Key() in st.onWire <==> Head(st.relays, s, d) == Some(r)))
            && Sub(OfPair(st.forwarded, s, d), OfPair(st.admitted, s, d))
  {
    var st := Run(limits, events);
    EveryRunKeepsInv(limits, events);
    assert PairInOrder(st, s, d);
    SubPrefix(OfPair(st.forwarded, s, d), Tail(OfPair(st.relays, s, d)), OfPair(st.admitted, s, d));
    OfPairMembers(st.relays, s, d);
  }

  // A resume re-sends exactly the hops to that destination that were on the wire, with
  // their own MessageIds.
  lemma {:induction false} ResumeResendsTheWire(limits: Limits, events: seq<Event>, n: nat, d: PeerId)
    requires n <= |Run(limits, events).relays|
    ensures var st := Run(limits, events);
            forall r :: r in HeadsTo(st.relays, n, d) <==> r in st.relays[..n] && r.To(d) && r.Key() in st.onWire
  {
    var st := Run(limits, events);
    EveryRunKeepsInv(limits, events);
    if n != 0 {
      ResumeResendsTheWire(limits, events, n - 1, d);
      assert st.relays[..n] == st.relays[..n - 1] + [st.relays[n - 1]];
    }
  }

  // Completing a relay promotes a fresh one exactly when the completed relay was the
  // head of its pair; completing any other names the head again, which is already out.
  lemma PromotionIsFreshIffHead(limits: Limits, st: State, r: Relay)
    requires Inv(limits, st) && r in st.relays
    requires OfPair(st.relays, r.op.source, r.op.destination) != [r]
    ensures var next := Head(Without(st.relays, r.Key()), r.op.source, r.op.destination);
            next.Some? && (next.value.Key() !in st.onWire <==> IsHead(st.relays, r))
  {
    var s, d := r.op.source, r.op.destination;
    var pair := OfPair(st.relays, s, d);
    OfPairMembers(st.relays, s, d);
    OfPairUnique(st.relays, s, d);
    WithoutOfPair(st.relays, r.Key(), s, d);
    var i :| 0 <= i < |pair| && pair[i] == r;
    PairWithout(pair, i);
    var first := Without(pair, r.Key())[0];
    assert first in pair;
    assert first.Key() in st.onWire <==> IsHead(st.relays, first);
  }

  lemma PairWithout(pair: seq<Relay>, i: nat)
    requires UniqueKeys(pair) && i < |pair| && |pair| > 1
    ensures var rest := Without(pair, pair[i].Key());
            rest != [] && rest[0] == pair[if i == 0 then 1 else 0]
  {
    assert pair == pair[..i] + [pair[i]] + pair[i + 1..];
    WithoutMiddle(pair[..i], pair[i], pair[i + 1..]);
  }
}
