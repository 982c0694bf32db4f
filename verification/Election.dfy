/**
 Timed election of a coordinator: ranks, announcements and the timer-free driver that one
 peer runs.
 */
module Election {
  import opened Types

  const ANNOUNCEMENT_WINDOW_MS: int := 1200
  const QUIET_MS: int := 500
  const HEARTBEAT_SPACING_MS: int := 100
  const HEARTBEATS: nat := 3

  datatype Rank = Rank(priority: nat, score: nat, peer: PeerId)

  // Application priority first, then capability score, then the bytes of the PeerId.
  function Compare(a: Rank, b: Rank): int {
    if a.priority != b.priority then (if a.priority < b.priority then -1 else 1)
    else if a.score != b.score then (if a.score < b.score then -1 else 1)
    else if a.peer != b.peer then (if a.peer < b.peer then -1 else 1)
    else 0
  }

  // One rank is above another by application priority, then by capability score, then by
  // the bytes of the PeerId; and nothing else decides.
  predicate Outranks(a: Rank, b: Rank) {
    || a.priority > b.priority
    || (a.priority == b.priority && a.score > b.score)
    || (a.priority == b.priority && a.score == b.score && a.peer > b.peer)
  }

  lemma CompareMeaning(a: Rank, b: Rank)
    ensures Compare(a, b) > 0 <==> Outranks(a, b)
    ensures Compare(a, b) < 0 <==> Outranks(b, a)
    ensures Compare(a, b) == 0 <==> a == b
  {
  }

  datatype Announcement = Announcement(group: GroupId, term: nat, rank: Rank, hash: nat)

  predicate Above(a: Announcement, term: nat, rank: Rank) {
    a.term > term || (a.term == term && Compare(a.rank, rank) > 0)
  }

  // An announcement of a later term, or of the same term with a higher rank.
  predicate Supersedes(a: Announcement, term: nat, rank: Rank) {
    a.term > term || (a.term == term && Outranks(a.rank, rank))
  }

  lemma AboveMeaning(a: Announcement, term: nat, rank: Rank)
    ensures Above(a, term, rank) <==> Supersedes(a, term, rank)
  {
    CompareMeaning(a.rank, rank);
  }

  // The left fold that picks a list's highest candidate.
  function Highest(candidates: seq<Announcement>): Announcement
    requires candidates != []
  {
    if |candidates| == 1 then candidates[0]
    else
      var best, next := Highest(candidates[..|candidates| - 1]), candidates[|candidates| - 1];
      if Above(next, best.term, best.rank) then next else best
  }

  lemma {:induction false} HighestIsMaximal(candidates: seq<Announcement>)
    requires candidates != []
    ensures Highest(candidates) in candidates
    ensures forall a :: a in candidates ==> !Above(a, Highest(candidates).term, Highest(candidates).rank)
    ensures forall a :: a in candidates ==> !Supersedes(a, Highest(candidates).term, Highest(candidates).rank)
  {
    forall a | a in candidates { AboveMeaning(a, Highest(candidates).term, Highest(candidates).rank); }
    if |candidates| > 1 {
      HighestIsMaximal(candidates[..|candidates| - 1]);
      forall a | a in candidates ensures !Above(a, Highest(candidates).term, Highest(candidates).rank) {
        assert a in candidates[..|candidates| - 1] || a == candidates[|candidates| - 1];
      }
    } else {
      assert forall a :: a in candidates ==> a == candidates[0];
    }
  }

  predicate MayClaim(rank: Rank, term: nat, observed: seq<Announcement>) {
    forall a :: a in observed && a.term >= term ==> a.term == term && Compare(rank, a.rank) >= 0
  }

  // A peer may claim exactly when it is itself the highest candidate it has observed.
  lemma MayClaimIffHighest(local: Announcement, observed: seq<Announcement>)
    requires local in observed
    ensures MayClaim(local.rank, local.term, observed)
            <==> Highest(observed).term == local.term && Highest(observed).rank == local.rank
    ensures MayClaim(local.rank, local.term, observed) <==> forall a :: a in observed ==> !Supersedes(a, local.term, local.rank)
  {
    forall a | a in observed { CompareMeaning(local.rank, a.rank); }
    HighestIsMaximal(observed);
    var best := Highest(observed);
    if MayClaim(local.rank, local.term, observed) {
      assert !Above(local, best.term, best.rank);
    }
    if best.term == local.term && best.rank == local.rank {
      forall a | a in observed && a.term >= local.term ensures a.term == local.term && Compare(local.rank, a.rank) >= 0 {
        assert !Above(a, best.term, best.rank);
      }
    }
  }

  // ---------- the driver ----------

  datatype Controller = Controller(
    local: Announcement,
    startedAt: int,
    observed: map<(nat, PeerId), Announcement>,
    claimSentAt: Option<int>,
    higherObservedAt: Option<int>,
    nextHeartbeat: nat,
    coordinator: bool)

  datatype Action = Claim(message: Announcement) | BecameCoordinator | Heartbeat(index: nat)

  function Begin(group: GroupId, rank: Rank, lastCommittedTerm: nat, hash: nat, startedAt: int): Controller {
    var local := Announcement(group, lastCommittedTerm + 1, rank, hash);
    Controller(local, startedAt, map[(local.term, rank.peer) := local], None, None, 0, false)
  }

  predicate Higher(c: Controller, message: Announcement) { Above(message, c.local.term, c.local.rank) }

  // Records a message; the result says whether to announce again.
  function Observe(c: Controller, message: Announcement, isClaim: bool, now: int): (Result<bool>, Controller) {
    if message.group != c.local.group then (Err(ProtocolMismatch), c)
    else
      (Ok(isClaim && message.term == c.local.term && Compare(c.local.rank, message.rank) > 0),
       c.(observed := c.observed[(message.term, message.rank.peer) := message],
          higherObservedAt := if Higher(c, message) then Some(now) else c.higherObservedAt))
  }

  predicate MayClaimNow(c: Controller) {
    forall k :: k in c.observed && c.observed[k].term >= c.local.term ==>
      c.observed[k].term == c.local.term && Compare(c.local.rank, c.observed[k].rank) >= 0
  }

  function HeartbeatStep(c: Controller, now: int): (seq<Action>, Controller)
    requires c.claimSentAt.Some?
  {
    if c.nextHeartbeat < HEARTBEATS && now >= c.claimSentAt.value + QUIET_MS + c.nextHeartbeat * HEARTBEAT_SPACING_MS then
      ([Heartbeat(c.nextHeartbeat)], c.(nextHeartbeat := c.nextHeartbeat + 1))
    else ([], c)
  }

  function ClaimStep(c: Controller, now: int): (seq<Action>, Controller) {
    if c.claimSentAt.None? && now >= c.startedAt + ANNOUNCEMENT_WINDOW_MS && MayClaimNow(c) then
      ([Claim(c.local)], c.(claimSentAt := Some(now)))
    else ([], c)
  }

  function PromoteStep(c: Controller, now: int): (seq<Action>, Controller) {
    if c.claimSentAt.Some? && c.higherObservedAt.None? && now >= c.claimSentAt.value + QUIET_MS then
      ([BecameCoordinator, Heartbeat(c.nextHeartbeat)], c.(coordinator := true, nextHeartbeat := c.nextHeartbeat + 1))
    else ([], c)
  }

  function Poll(c: Controller, now: int): (seq<Action>, Controller)
    requires c.coordinator ==> c.claimSentAt.Some?
  {
    if c.coordinator then HeartbeatStep(c, now)
    else
      var (claim, c1) := ClaimStep(c, now);
      var (promotion, c2) := PromoteStep(c1, now);
      (claim + promotion, c2)
  }

  class ElectionController {
    const local: Announcement
    const startedAt: int
    var observed: map<(nat, PeerId), Announcement>
    var claimSentAt: Option<int>
    var higherObservedAt: Option<int>
    var nextHeartbeat: nat
    var coordinator: bool

    function State(): Controller
      reads this
    {
      Controller(local, startedAt, observed, claimSentAt, higherObservedAt, nextHeartbeat, coordinator)
    }

    predicate Valid()
      reads this
    {
      coordinator ==> claimSentAt.Some?
    }

    constructor (group: GroupId, rank: Rank, lastCommittedTerm: nat, hash: nat, startedAt: int)
      ensures Valid() && State() == Begin(group, rank, lastCommittedTerm, hash, startedAt)
    {
      var announcement := Announcement(group, lastCommittedTerm + 1, rank, hash);
      local, this.startedAt := announcement, startedAt;
      observed := map[(announcement.term, rank.peer) := announcement];
      claimSentAt, higherObservedAt, nextHeartbeat, coordinator := None, None, 0, false;
    }

    method ObserveMessage(message: Announcement, isClaim: bool, now: int) returns (r: Result<bool>)
      requires Valid()
      modifies this
      ensures Valid() && (r, State()) == Observe(old(State()), message, isClaim, now)
    {
      if message.group != local.group { return Err(ProtocolMismatch); }
      observed := observed[(message.term, message.rank.peer) := message];
      if message.term > local.term || (message.term == local.term && Compare(message.rank, local.rank) > 0) {
        higherObservedAt := Some(now);
      }
      r := Ok(isClaim && message.term == local.term && Compare(local.rank, message.rank) > 0);
    }

    method PollAt(now: int) returns (actions: seq<Action>)
      requires Valid()
      modifies this
      ensures Valid() && (actions, State()) == Poll(old(State()), now)
    {
      actions := [];
      if coordinator {
        if nextHeartbeat < HEARTBEATS && now >= claimSentAt.value + QUIET_MS + nextHeartbeat * HEARTBEAT_SPACING_MS {
          actions := [Heartbeat(nextHeartbeat)];
          nextHeartbeat := nextHeartbeat + 1;
        }
        return;
      }
      ghost var before := State();
      if claimSentAt.None? && now >= startedAt + ANNOUNCEMENT_WINDOW_MS && MayClaimNow(State()) {
        claimSentAt := Some(now);
        actions := [Claim(local)];
      }
      assert (actions, State()) == ClaimStep(before, now);
      if claimSentAt.Some? && higherObservedAt.None? && now >= claimSentAt.value + QUIET_MS {
        coordinator := true;
        actions := actions + [BecameCoordinator, Heartbeat(nextHeartbeat)];
        nextHeartbeat := nextHeartbeat + 1;
      }
      assert actions == ClaimStep(before, now).0 + PromoteStep(ClaimStep(before, now).1, now).0;
    }
  }

  // ---------- one controller over any run ----------

  datatype Event = Observed(message: Announcement, isClaim: bool, now: int) | Polled(now: int)

  // An action and the time of the poll that produced it.
  datatype Stamped = Stamped(action: Action, at: int)

  datatype History = History(controller: Controller, done: seq<Stamped>)

  function Stamp(actions: seq<Action>, at: int): seq<Stamped> {
    seq(|actions|, i requires 0 <= i < |actions| => Stamped(actions[i], at))
  }

  predicate Sane(c: Controller) { c.coordinator ==> c.claimSentAt.Some? }

  function Step(h: History, e: Event): (after: History)
    requires Sane(h.controller)
    ensures Sane(after.controller)
  {
    match e
    case Observed(message, isClaim, now) => h.(controller := Observe(h.controller, message, isClaim, now).1)
    case Polled(now) =>
      var (actions, c) := Poll(h.controller, now);
      History(c, h.done + Stamp(actions, now))
  }

  function Run(start: Controller, events: seq<Event>): (h: History)
    requires Sane(start)
    ensures Sane(h.controller)
  {
    if events == [] then History(start, [])
    else Step(Run(start, events[..|events| - 1]), events[|events| - 1])
  }

  // ---------- what a message and a poll decide ----------

  // Nothing observed supersedes the peer's own announcement.
  predicate Unbeaten(c: Controller) {
    forall k :: k in c.observed ==> !Supersedes(c.observed[k], c.local.term, c.local.rank)
  }

  // A message of the same group is recorded, with the time when it supersedes the peer's
  // own announcement; the answer asks for a new announcement exactly on a claim of the
  // same term by a lower rank.
  lemma ObserveDecided(c: Controller, message: Announcement, isClaim: bool, now: int)
    ensures var (r, c') := Observe(c, message, isClaim, now);
            && (message.group != c.local.group ==> (r, c') == (Err(ProtocolMismatch), c))
            && (message.group == c.local.group ==>
                  && r == Ok(isClaim && message.term == c.local.term && Outranks(c.local.rank, message.rank))
                  && c' == c.(observed := c.observed[(message.term, message.rank.peer) := message],
                              higherObservedAt := if Supersedes(message, c.local.term, c.local.rank) then Some(now) else c.higherObservedAt))
  {
    AboveMeaning(message, c.local.term, c.local.rank);
    CompareMeaning(c.local.rank, message.rank);
  }

  lemma MayClaimNowMeaning(c: Controller)
    ensures MayClaimNow(c) <==> Unbeaten(c)
  {
    forall k | k in c.observed { CompareMeaning(c.local.rank, c.observed[k].rank); }
  }

  // An unbeaten peer claims once its window is over; a claim that nothing superseded for
  // half a second makes it coordinator, with heartbeat 0; then each further heartbeat goes
  // out when it is due, one to a poll.
  lemma PollDecided(c: Controller, now: int)
    requires Sane(c)
    ensures var (actions, c') := Poll(c, now);
            var claims := !c.coordinator && c.claimSentAt.None? && now >= c.startedAt + 1200 && Unbeaten(c);
            var wins := !c.coordinator && c.claimSentAt.Some? && c.higherObservedAt.None? && now >= c.claimSentAt.value + 500;
            var beats := c.coordinator && c.nextHeartbeat < 3 && now >= c.claimSentAt.value + 500 + c.nextHeartbeat * 100;
            && (claims ==> actions == [Claim(c.local)] && c' == c.(claimSentAt := Some(now)))
            && (wins ==> actions == [BecameCoordinator, Heartbeat(c.nextHeartbeat)]
                         && c' == c.(coordinator := true, nextHeartbeat := c.nextHeartbeat + 1))
            && (beats ==> actions == [Heartbeat(c.nextHeartbeat)] && c' == c.(nextHeartbeat := c.nextHeartbeat + 1))
            && (!claims && !wins && !beats ==> actions == [] && c' == c)
  {
    MayClaimNowMeaning(c);
  }

  // Who has seen a higher candidate before it was promoted is never promoted.
  lemma {:induction false} HigherSeenNeverPromoted(c: Controller, events: seq<Event>)
    requires c.higherObservedAt.Some? && !c.coordinator
    ensures !Run(c, events).controller.coordinator && Run(c, events).controller.higherObservedAt.Some?
  {
    if events != [] { HigherSeenNeverPromoted(c, events[..|events| - 1]); }
  }

  // In every run: a message that supersedes the peer's own announcement, observed before
  // the promotion, rules it out for good.
  lemma SupersededNeverPromoted(start: Controller, before: seq<Event>, e: Event, after: seq<Event>)
    requires Sane(start) && e.Observed? && e.message.group == Run(start, before).controller.local.group
    requires Supersedes(e.message, Run(start, before).controller.local.term, Run(start, before).controller.local.rank)
    requires !Run(start, before).controller.coordinator
    ensures !Run(Run(start, before + [e]).controller, after).controller.coordinator
  {
    var c := Run(start, before).controller;
    assert (before + [e])[..|before|] == before;
    ObserveDecided(c, e.message, e.isClaim, e.now);
    HigherSeenNeverPromoted(Run(start, before + [e]).controller, after);
  }

  // ---------- what a run of actions looks like ----------

  function Expected(c: Controller, at: seq<int>): seq<Stamped>
    requires |at| == (if c.claimSentAt.Some? then 1 else 0) + c.nextHeartbeat
    requires c.nextHeartbeat > 0 ==> c.claimSentAt.Some?
  {
    if c.claimSentAt.None? then []
    else if c.nextHeartbeat == 0 then [Stamped(Claim(c.local), at[0])]
    else
      [Stamped(Claim(c.local), at[0]), Stamped(BecameCoordinator, at[1])] +
      seq(c.nextHeartbeat, k requires 0 <= k < c.nextHeartbeat => Stamped(Heartbeat(k), at[1 + k]))
  }

  // The claim no earlier than the window, heartbeat k no earlier than its due time, the
  // promotion together with heartbeat 0.
  ghost predicate OnTime(c: Controller, at: seq<int>)
    requires |at| == (if c.claimSentAt.Some? then 1 else 0) + c.nextHeartbeat
    requires c.nextHeartbeat > 0 ==> c.claimSentAt.Some?
  {
    && (c.claimSentAt.Some? ==> at[0] == c.claimSentAt.value && at[0] >= c.startedAt + ANNOUNCEMENT_WINDOW_MS)
    && forall k: nat :: k < c.nextHeartbeat ==> at[1 + k] >= c.claimSentAt.value + QUIET_MS + k * HEARTBEAT_SPACING_MS
  }

  ghost predicate Shaped(h: History, at: seq<int>) {
    var c := h.controller;
    && |at| == (if c.claimSentAt.Some? then 1 else 0) + c.nextHeartbeat
    && (c.coordinator <==> c.nextHeartbeat > 0)
    && (c.coordinator ==> c.claimSentAt.Some?)
    && c.nextHeartbeat <= HEARTBEATS
    && h.done == Expected(c, at)
    && OnTime(c, at)
  }

  lemma PollShaped(h: History, now: int, at: seq<int>) returns (more: seq<int>)
    requires Sane(h.controller) && Shaped(h, at)
    ensures Shaped(Step(h, Polled(now)), more)
  {
    var c := h.controller;
    var (actions, after) := Poll(c, now);
    more := at + (if after.claimSentAt != c.claimSentAt then [now] else [])
               + (if after.nextHeartbeat != c.nextHeartbeat then [now] else []);
  }

  // In every run a peer's actions are: nothing; one claim; or one claim, its promotion
  // and heartbeats 0, 1, 2 in this order, each no earlier than it is due.
  lemma {:induction false} ActionsAreShaped(start: Controller, events: seq<Event>) returns (at: seq<int>)
    requires start.claimSentAt.None? && start.nextHeartbeat == 0 && !start.coordinator
    ensures Shaped(Run(start, events), at)
  {
    at := [];
    if events != [] {
      at := ActionsAreShaped(start, events[..|events| - 1]);
      var e := events[|events| - 1];
      if e.Polled? { at := PollShaped(Run(start, events[..|events| - 1]), e.now, at); }
    }
  }

  // After heartbeat k went out at `sent`, the next one is certain to come at least 100 ms
  // later exactly when heartbeat k was not late.
  lemma SpacingKeptIff(c: Controller, sent: int)
    requires c.coordinator && c.claimSentAt.Some? && 0 < c.nextHeartbeat < HEARTBEATS
    ensures sent <= c.claimSentAt.value + QUIET_MS + (c.nextHeartbeat - 1) * HEARTBEAT_SPACING_MS
            <==> forall now: int :: sent <= now && Poll(c, now).0 != [] ==> now >= sent + HEARTBEAT_SPACING_MS
  {
    var due := c.claimSentAt.value + QUIET_MS + c.nextHeartbeat * HEARTBEAT_SPACING_MS;
    assert due == c.claimSentAt.value + QUIET_MS + (c.nextHeartbeat - 1) * HEARTBEAT_SPACING_MS + HEARTBEAT_SPACING_MS;
    var early := Max(sent, due);
    assert Poll(c, early).0 != [];
  }
}
