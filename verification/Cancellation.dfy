/**
 What a cancelled send of a member can still do: its handle stays CANCELLED, but a submission
 loop that was in progress at the cancellation still submits it. Exactly then it is submitted.
 */
module Cancellation {
  import opened Types
  import opened RelayTable
  import opened RelayController
  import opened RoutedDelivery
  import opened AckSoundness
  import opened HandleLaws
  import ST = StaleTraffic

  // The event submits this operation.
  predicate SubmitsOp(sys: System, e: Event, p: PeerId, op: Operation) {
    && e.Submits? && e.source == p && e.submitted && p in sys.peers && e.pass < |sys.peers[p].passes|
    && sys.peers[p].passes[e.pass].rest != [] && sys.peers[p].passes[e.pass].rest[0] == op
  }

  ghost predicate SentIn(cfg: Config, sys: System, later: seq<Event>, p: PeerId, op: Operation) {
    exists i :: 0 <= i < |later| && SubmitsOp(Run(cfg, sys, later[..i]), later[i], p, op)
  }

  // The operation is in the rest of a submission loop: of a reroute, or of its send call.
  predicate InProgress(q: Peer, op: Operation) {
    exists k :: 0 <= k < |q.passes| && op in q.passes[k].rest
  }

  // ---------- only three events touch the loops ----------

  lemma ApplyKeepsPasses(sys: System, c: PeerId, from: PeerId, outcome: Outcome, local: Option<GroupMessageId>, reach: Reach, p: PeerId)
    requires c in sys.peers && p in sys.peers
    ensures var sys' := Apply(sys, c, from, outcome, local, reach); p in sys'.peers && sys'.peers[p].passes == sys.peers[p].passes
  {
  }

  lemma ReceiveKeepsPasses(cfg: Config, sys: System, at: PeerId, m: Message, ready: bool, reach: Reach, p: PeerId)
    requires p in sys.peers
    ensures var sys' := ReceiveStep(cfg, sys, at, m, ready, reach); p in sys'.peers && sys'.peers[p].passes == sys.peers[p].passes
  {
    if ReceiveStep(cfg, sys, at, m, ready, reach) != sys {
      if sys.peers[at].coordinator == at {
        ApplyKeepsPasses(Bind(sys, m.op, true), at, m.from, AdmittedOutcome(cfg, sys, at, m.op, m.hop, ready), None, reach, p);
      } else {
        OnlyRouterChanges(sys.peers[at], at, m, reach);
      }
    }
  }

  lemma ResultKeepsPasses(cfg: Config, sys: System, e: Event, p: PeerId)
    requires p in sys.peers && (e.AckArrives? || e.OrderedHopSubmitted? || e.ForwardFails?)
    ensures var sys' := Step(cfg, sys, e); p in sys'.peers && sys'.peers[p].passes == sys.peers[p].passes
  {
    if Step(cfg, sys, e) != sys {
      match e
      case AckArrives(at, m, reach) =>
        var q := sys.peers[at];
        ApplyKeepsPasses(With(sys, at, q.(hops := WithoutHop(q.hops, m.hop)), {}), at, at,
                         Acknowledged(LimitsOf(cfg, at), q.relays, q.hops[m.hop].key), Some(q.hops[m.hop].key.id), reach, p);
      case OrderedHopSubmitted(at, key, reach) =>
        ApplyKeepsPasses(sys, at, at, Submitted(LimitsOf(cfg, at), sys.peers[at].relays, key), None, reach, p);
      case ForwardFails(at, key, reach) =>
        ApplyKeepsPasses(sys, at, at, FinalHopFailure(LimitsOf(cfg, at), sys.peers[at].relays, key, DestinationUnavailable),
                         Some(key.id), reach, p);
    }
  }

  lemma TimeoutKeepsPasses(cfg: Config, sys: System, at: PeerId, hop: nat, reach: Reach, p: PeerId)
    requires p in sys.peers
    ensures var sys' := HopTimesOutStep(cfg, sys, at, hop, reach); p in sys'.peers && sys'.peers[p].passes == sys.peers[p].passes
  {
    if at in sys.peers && hop in sys.peers[at].hops {
      var q := sys.peers[at];
      var key := q.hops[hop].key;
      ApplyKeepsPasses(With(sys, at, q.(hops := WithoutHop(q.hops, hop)), {}), at, at,
                       FinalHopFailure(LimitsOf(cfg, at), q.relays, key, DestinationAckTimeout), Some(key.id), reach, p);
    }
  }

  lemma OthersKeepPasses(cfg: Config, sys: System, e: Event, p: PeerId)
    requires p in sys.peers && !e.Originate? && !e.RerouteBegins? && !e.Submits?
    ensures var sys' := Step(cfg, sys, e); p in sys'.peers && sys'.peers[p].passes == sys.peers[p].passes
  {
    match e
    case Receive(at, m, ready, reach) => ReceiveKeepsPasses(cfg, sys, at, m, ready, reach, p);
    case HopTimesOut(at, hop, reach) => TimeoutKeepsPasses(cfg, sys, at, hop, reach, p);
    case _ =>
      if e.AckArrives? || e.OrderedHopSubmitted? || e.ForwardFails? {
        ResultKeepsPasses(cfg, sys, e, p);
      } else {
        QuietKeepsPasses(cfg, sys, e, p);
      }
  }

  lemma QuietKeepsPasses(cfg: Config, sys: System, e: Event, p: PeerId)
    requires p in sys.peers
    requires || e.ReceiveStale? || e.HopDropped? || e.Resumes? || e.DestinationGone? || e.Commit? || e.Leave? || e.HandOff?
             || e.SignalArrives? || e.CancelSend?
    ensures var sys' := Step(cfg, sys, e); p in sys'.peers && sys'.peers[p].passes == sys.peers[p].passes
  {
    if e.SignalArrives? || e.CancelSend? || e.HandOff? { SessionKeepsPasses(cfg, sys, e, p); }
  }

  lemma SessionKeepsPasses(cfg: Config, sys: System, e: Event, p: PeerId)
    requires p in sys.peers && (e.SignalArrives? || e.CancelSend? || e.HandOff?)
    ensures var sys' := Step(cfg, sys, e); p in sys'.peers && sys'.peers[p].passes == sys.peers[p].passes
  {
  }

  // ---------- a gone operation enters no loop ----------

  lemma OriginateKeepsOut(cfg: Config, sys: System, e: Event, p: PeerId, op: Operation)
    requires p in sys.peers && e.Originate? && op.id < sys.peers[p].nextId && !InProgress(sys.peers[p], op)
    ensures var sys' := Step(cfg, sys, e); p in sys'.peers && !InProgress(sys'.peers[p], op)
  {
    var s := e.source;
    if Step(cfg, sys, e) != sys {
      var new_ := Operation(s, e.destination, sys.peers[s].nextId, e.mode, e.priority, e.bytes);
      var named := Named(sys, s, new_);
      assert named.peers[p].passes == sys.peers[p].passes;
      if sys.peers[s].coordinator == s {
        ApplyKeepsPasses(Bind(named, new_, true), s, s, OwnOutcome(cfg, named, s, new_, e.ready), Some(new_.id), e.reach, p);
      } else {
        MemberOrigin(cfg, named, s, new_, e.ready);
        if p == s { NewPass(named.peers[p], Pass(named.peers[p].coordinator, [new_], true), op); }
      }
    }
  }

  lemma NewPass(q: Peer, pass: Pass, op: Operation)
    requires !InProgress(q, op) && op !in pass.rest
    ensures !InProgress(q.(passes := q.passes + [pass]), op)
  {
    var q' := q.(passes := q.passes + [pass]);
    forall k | 0 <= k < |q'.passes| ensures op !in q'.passes[k].rest {
      if k < |q.passes| { assert q'.passes[k] == q.passes[k]; }
    }
  }

  lemma RerouteKeepsOut(sys: System, s: PeerId, order: seq<GroupMessageId>, onlyOrdered: bool, p: PeerId, op: Operation)
    requires AllIdsUsed(sys) && p in sys.peers && op.id !in sys.peers[p].sends.live && !InProgress(sys.peers[p], op)
    ensures var sys' := RerouteBeginsStep(sys, s, order, onlyOrdered); p in sys'.peers && !InProgress(sys'.peers[p], op)
  {
    if RerouteBeginsStep(sys, s, order, onlyOrdered) != sys && p == s {
      RerouteTakes(sys, s, order, onlyOrdered);
      var ops := Snapshot(sys.peers[p].sends.live, order);
      forall i | 0 <= i < |ops| ensures ops[i] != op { assert ops[i].id == order[i]; }
      NewPass(sys.peers[p], Pass(sys.peers[p].coordinator, ops, false), op);
    }
  }

  lemma SubmitsKeepsOut(sys: System, s: PeerId, k: nat, submitted: bool, p: PeerId, op: Operation)
    requires p in sys.peers && !InProgress(sys.peers[p], op)
    ensures var sys' := SubmitsStep(sys, s, k, submitted); p in sys'.peers && !InProgress(sys'.peers[p], op)
  {
    if s in sys.peers && k < |sys.peers[s].passes| && sys.peers[s].passes[k].rest != [] && p == s {
      var q, q' := sys.peers[p], SubmitsStep(sys, s, k, submitted).peers[p];
      assert q'.passes == q.passes[k := q.passes[k].(rest := if submitted then q.passes[k].rest[1..] else [])];
      forall j | 0 <= j < |q'.passes| ensures op !in q'.passes[j].rest { assert op !in q.passes[j].rest; }
    }
  }

  lemma StepKeepsOut(cfg: Config, sys: System, e: Event, p: PeerId, op: Operation)
    requires AllIdsUsed(sys) && p in sys.peers && op.id < sys.peers[p].nextId && op.id !in sys.peers[p].sends.live
    requires !InProgress(sys.peers[p], op)
    ensures var sys' := Step(cfg, sys, e); p in sys'.peers && !InProgress(sys'.peers[p], op)
  {
    match e
    case Originate(_, _, _, _, _, _, _) => OriginateKeepsOut(cfg, sys, e, p, op);
    case RerouteBegins(s, order, onlyOrdered) => RerouteKeepsOut(sys, s, order, onlyOrdered, p, op);
    case Submits(s, k, submitted) => SubmitsKeepsOut(sys, s, k, submitted, p, op);
    case _ => OthersKeepPasses(cfg, sys, e, p);
  }

  lemma {:induction false} StaysOut(cfg: Config, sys: System, later: seq<Event>, p: PeerId, op: Operation)
    requires AllIdsUsed(sys) && p in sys.peers && op.id < sys.peers[p].nextId && op.id !in sys.peers[p].sends.live
    requires !InProgress(sys.peers[p], op)
    ensures var end := Run(cfg, sys, later); p in end.peers && !InProgress(end.peers[p], op)
  {
    if later != [] {
      var front := later[..|later| - 1];
      StaysOut(cfg, sys, front, p, op);
      RunIdsUsed(cfg, sys, front);
      NeverLiveAgain(cfg, sys, front, p, op.id);
      StepKeepsOut(cfg, Run(cfg, sys, front), later[|later| - 1], p, op);
    }
  }

  // ---------- a loop in progress reaches it ----------

  lemma {:induction false} LoopReaches(cfg: Config, sys: System, p: PeerId, k: nat, j: nat, op: Operation) returns (later: seq<Event>)
    requires p in sys.peers && k < |sys.peers[p].passes| && j < |sys.peers[p].passes[k].rest| && sys.peers[p].passes[k].rest[j] == op
    ensures SentIn(cfg, sys, later, p, op)
    decreases j
  {
    var e := Submits(p, k, true);
    if j == 0 {
      later := [e];
      assert later[..0] == [];
      assert SubmitsOp(Run(cfg, sys, later[..0]), later[0], p, op);
    } else {
      var next := SubmitsStep(sys, p, k, true);
      assert next.peers[p].passes[k].rest == sys.peers[p].passes[k].rest[1..];
      var rest := LoopReaches(cfg, next, p, k, j - 1, op);
      later := [e] + rest;
      SentAfter(cfg, sys, e, rest, p, op);
    }
  }

  lemma SentAfter(cfg: Config, sys: System, e: Event, rest: seq<Event>, p: PeerId, op: Operation)
    requires SentIn(cfg, Step(cfg, sys, e), rest, p, op)
    ensures SentIn(cfg, sys, [e] + rest, p, op)
  {
    var i :| 0 <= i < |rest| && SubmitsOp(Run(cfg, Step(cfg, sys, e), rest[..i]), rest[i], p, op);
    RunOne(cfg, sys, e);
    RunConcat(cfg, sys, [e], rest[..i]);
    assert ([e] + rest)[..i + 1] == [e] + rest[..i];
    assert SubmitsOp(Run(cfg, sys, ([e] + rest)[..i + 1]), ([e] + rest)[i + 1], p, op);
  }

  // ---------- a member: exactly when it is submitted again ----------

  lemma CancelTakesEffect(cfg: Config, sys: System, p: PeerId, id: GroupMessageId, sessions: set<nat>)
    requires p in sys.peers && id in sys.peers[p].handles && !sys.peers[p].handles[id].Terminal()
    ensures var sys' := Step(cfg, sys, CancelSend(p, id, sessions));
            && p in sys'.peers && sys'.peers[p].passes == sys.peers[p].passes && sys'.peers[p].nextId == sys.peers[p].nextId
            && id !in sys'.peers[p].sends.live && id in sys'.peers[p].handles && sys'.peers[p].handles[id] == Cancelled
  {
    HandleLaws.CancelledSends(sys.peers[p].sends, cfg.caps, id, sessions);
  }

  // After any run, the application cancels a send whose handle is unfinished. Some
  // continuation submits the operation after that, under its CANCELLED handle, if and only
  // if it was in the rest of a submission loop in progress at the cancellation.
  lemma SentAgainIff(cfg: Config, start: System, past: seq<Event>, p: PeerId, op: Operation, sessions: set<nat>)
    requires Initial(start) && op.source == p
    requires var sys := Run(cfg, start, past);
             p in sys.peers && op.id in sys.peers[p].handles && !sys.peers[p].handles[op.id].Terminal()
    ensures var sys := Run(cfg, start, past);
            var cancelled := Step(cfg, sys, CancelSend(p, op.id, sessions));
            (exists later :: SentIn(cfg, cancelled, later, p, op)) <==> InProgress(sys.peers[p], op)
  {
    var sys := Run(cfg, start, past);
    var cancelled := Step(cfg, sys, CancelSend(p, op.id, sessions));
    assert AllIdsUsed(start);
    RunIdsUsed(cfg, start, past);
    CancelledSentAgainIff(cfg, sys, p, op, sessions);
  }

  lemma CancelledSentAgainIff(cfg: Config, sys: System, p: PeerId, op: Operation, sessions: set<nat>)
    requires AllIdsUsed(sys) && p in sys.peers && op.source == p
    requires op.id in sys.peers[p].handles && !sys.peers[p].handles[op.id].Terminal()
    ensures var cancelled := Step(cfg, sys, CancelSend(p, op.id, sessions));
            (exists later :: SentIn(cfg, cancelled, later, p, op)) <==> InProgress(sys.peers[p], op)
  {
    var cancelled := Step(cfg, sys, CancelSend(p, op.id, sessions));
    CancelTakesEffect(cfg, sys, p, op.id, sessions);
    CancelSettles(cfg, sys, p, op.id, sessions);
    assert AllIdsUsed(cancelled);
    if InProgress(sys.peers[p], op) {
      var k :| 0 <= k < |sys.peers[p].passes| && op in sys.peers[p].passes[k].rest;
      var j :| 0 <= j < |sys.peers[p].passes[k].rest| && sys.peers[p].passes[k].rest[j] == op;
      var later := LoopReaches(cfg, cancelled, p, k, j, op);
    } else {
      forall later: seq<Event> ensures !SentIn(cfg, cancelled, later, p, op) { NeverSent(cfg, cancelled, later, p, op); }
    }
  }

  lemma NeverSent(cfg: Config, sys: System, later: seq<Event>, p: PeerId, op: Operation)
    requires AllIdsUsed(sys) && p in sys.peers && op.id < sys.peers[p].nextId && op.id !in sys.peers[p].sends.live
    requires !InProgress(sys.peers[p], op)
    ensures !SentIn(cfg, sys, later, p, op)
  {
    forall i | 0 <= i < |later| ensures !SubmitsOp(Run(cfg, sys, later[..i]), later[i], p, op) {
      StaysOut(cfg, sys, later[..i], p, op);
    }
  }

  // ---------- what that looks like ----------

  // A member reroutes its live sends; the first is submitted, the second is cancelled, and
  // the loop goes on: the second operation is sent after its cancellation, and an
  // acknowledged one is waited for again.
  lemma CancelledDuringReroute(cfg: Config, sys: System, p: PeerId, order: seq<GroupMessageId>)
    requires p in sys.peers && sys.peers[p].coordinator != p && |order| >= 2
    requires Lists(order, Rerouted(sys.peers[p].sends, false))
    requires order[1] in sys.peers[p].handles && !sys.peers[p].handles[order[1]].Terminal()
    ensures var (id, k) := (order[1], |sys.peers[p].passes|);
            var end := Run(cfg, sys, [RerouteBegins(p, order, false), Submits(p, k, true)] + [CancelSend(p, id, {}), Submits(p, k, true)]);
            && p in end.peers && id in end.peers[p].handles && end.peers[p].handles[id] == Cancelled
            && Reliable(p, sys.peers[p].coordinator, sys.nextHop + 1, sys.peers[p].sends.live[id]) in end.net
            && (sys.peers[p].sends.live[id].mode == ReliableAcked ==> sys.nextHop + 1 in end.peers[p].hops)
  {
    var (id, k) := (order[1], |sys.peers[p].passes|);
    var first := SubmitsStep(RerouteBeginsStep(sys, p, order, false), p, k, true);
    FirstSubmitted(sys, p, order);
    CancelledGoesOut(cfg, first, p, id, k);
    RerouteRuns(cfg, sys, p, order, id, k);
  }

  lemma RerouteRuns(cfg: Config, sys: System, p: PeerId, order: seq<GroupMessageId>, id: GroupMessageId, k: nat)
    ensures var first := SubmitsStep(RerouteBeginsStep(sys, p, order, false), p, k, true);
            Run(cfg, sys, [RerouteBegins(p, order, false), Submits(p, k, true)] + [CancelSend(p, id, {}), Submits(p, k, true)])
            == SubmitsStep(CancelStep(cfg, first, p, id, {}), p, k, true)
  {
    var first := SubmitsStep(RerouteBeginsStep(sys, p, order, false), p, k, true);
    RunTwo(cfg, sys, RerouteBegins(p, order, false), Submits(p, k, true));
    RunTwo(cfg, first, CancelSend(p, id, {}), Submits(p, k, true));
    RunConcat(cfg, sys, [RerouteBegins(p, order, false), Submits(p, k, true)], [CancelSend(p, id, {}), Submits(p, k, true)]);
  }

  // The first send of the reroute is out, the second is next.
  lemma FirstSubmitted(sys: System, p: PeerId, order: seq<GroupMessageId>)
    requires p in sys.peers && sys.peers[p].coordinator != p && |order| >= 2
    requires Lists(order, Rerouted(sys.peers[p].sends, false))
    ensures var k := |sys.peers[p].passes|;
            var first := SubmitsStep(RerouteBeginsStep(sys, p, order, false), p, k, true);
            && p in first.peers && k < |first.peers[p].passes|
            && first.peers[p].passes[k].to == sys.peers[p].coordinator && first.peers[p].passes[k].rest != []
            && first.peers[p].passes[k].rest[0] == sys.peers[p].sends.live[order[1]]
            && first.peers[p].handles == sys.peers[p].handles && first.nextHop == sys.nextHop + 1
  {
    var k := |sys.peers[p].passes|;
    var ops := Snapshot(sys.peers[p].sends.live, order);
    var begun := RerouteBeginsStep(sys, p, order, false);
    assert begun.peers[p].passes[k] == Pass(sys.peers[p].coordinator, ops, false);
    assert ops[1..][0] == sys.peers[p].sends.live[order[1]];
  }

  lemma CancelledGoesOut(cfg: Config, sys: System, p: PeerId, id: GroupMessageId, k: nat)
    requires p in sys.peers && id in sys.peers[p].handles && !sys.peers[p].handles[id].Terminal()
    requires k < |sys.peers[p].passes| && sys.peers[p].passes[k].rest != []
    ensures var pass := sys.peers[p].passes[k];
            var end := SubmitsStep(CancelStep(cfg, sys, p, id, {}), p, k, true);
            && p in end.peers && id in end.peers[p].handles && end.peers[p].handles[id] == Cancelled
            && Reliable(p, pass.to, sys.nextHop, pass.rest[0]) in end.net
            && (pass.rest[0].mode == ReliableAcked ==> sys.nextHop in end.peers[p].hops)
  {
    CancelTakesEffect(cfg, sys, p, id, {});
  }

  // The shortest run: a send call is cancelled while its own submission is awaited.
  lemma CancelledDuringCall()
    ensures var end := Run(ST.CFG, ST.Beginning(), [Originate(1, 3, ReliableAcked, Normal, [], true), CancelSend(1, 0, {})] + [Submits(1, 0, true)]);
            && 1 in end.peers && 0 in end.peers[1].handles && end.peers[1].handles[0] == Cancelled
            && Reliable(1, 2, 0, ST.OP) in end.net && 0 in end.peers[1].hops
  {
    var called, e := ST.Called(), CancelSend(1, 0, {});
    ST.CalledStep();
    CancelTakesEffect(ST.CFG, called, 1, 0, {});
    var cancelled := Step(ST.CFG, called, e);
    assert cancelled.peers[1].passes[0] == Pass(2, [ST.OP], true) && cancelled.nextHop == 0;
    RunTwo(ST.CFG, ST.Beginning(), Originate(1, 3, ReliableAcked, Normal, [], true), e);
    RunSnoc(ST.CFG, ST.Beginning(), [Originate(1, 3, ReliableAcked, Normal, [], true), e], Submits(1, 0, true));
  }
}
