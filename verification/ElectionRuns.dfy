/**
 An election among any number of peers that share their last committed term: announcements
 and claims are delivered in any order, repeated or lost, and each peer polls its driver.
 */
module ElectionRuns {
  import opened Types
  import opened Election

  datatype Config = Config(group: GroupId, lastTerm: nat, hash: nat, ranks: map<PeerId, Rank>, starts: map<PeerId, int>)
  {
    ghost predicate Proper() {
      ranks != map[] && starts.Keys == ranks.Keys && forall p :: p in ranks ==> ranks[p].peer == p
    }

    function AnnouncementOf(p: PeerId): Announcement
      requires p in ranks
    {
      Announcement(group, lastTerm + 1, ranks[p], hash)
    }

    ghost predicate IsHighest(m: PeerId) {
      m in ranks && forall p :: p in ranks && p != m ==> Compare(ranks[m], ranks[p]) > 0
    }
  }

  datatype Event =
    | Deliver(from: PeerId, to: PeerId, isClaim: bool, now: int)
    | PollAt(peer: PeerId, now: int)

  // What an event does to the controller of peer `p`; nothing else touches it.
  function Step(cfg: Config, p: PeerId, c: Controller, e: Event): (after: Controller)
    requires Sane(c)
    ensures Sane(after)
  {
    match e
    case Deliver(from, to, isClaim, now) =>
      if to == p && from in cfg.ranks then Observe(c, cfg.AnnouncementOf(from), isClaim, now).1 else c
    case PollAt(q, now) => if q == p then Poll(c, now).1 else c
  }

  // The controller of `p` after a run of the whole system.
  function After(cfg: Config, events: seq<Event>, p: PeerId): (c: Controller)
    requires p in cfg.ranks && p in cfg.starts
    ensures Sane(c)
  {
    if events == [] then Begin(cfg.group, cfg.ranks[p], cfg.lastTerm, cfg.hash, cfg.starts[p])
    else Step(cfg, p, After(cfg, events[..|events| - 1], p), events[|events| - 1])
  }

  // ---------- ranks ----------

  // The greatest application priority; among those of that priority the greatest
  // capability score; among those of that score the greatest PeerId.
  ghost predicate Greatest(ranks: map<PeerId, Rank>, m: PeerId) {
    && m in ranks
    && (forall p :: p in ranks ==> ranks[p].priority <= ranks[m].priority)
    && (forall p :: p in ranks && ranks[p].priority == ranks[m].priority ==> ranks[p].score <= ranks[m].score)
    && (forall p :: p in ranks && ranks[p].priority == ranks[m].priority && ranks[p].score == ranks[m].score ==>
          ranks[p].peer <= ranks[m].peer)
  }

  // Being highest means just that.
  lemma HighestIsGreatest(cfg: Config, m: PeerId)
    requires cfg.Proper()
    ensures cfg.IsHighest(m) <==> Greatest(cfg.ranks, m)
  {
    if m in cfg.ranks {
      forall p | p in cfg.ranks { CompareMeaning(cfg.ranks[m], cfg.ranks[p]); }
    }
  }

  lemma HighestExists(ranks: map<PeerId, Rank>) returns (m: PeerId)
    requires ranks != map[] && forall p :: p in ranks ==> ranks[p].peer == p
    ensures m in ranks && forall p :: p in ranks && p != m ==> Compare(ranks[m], ranks[p]) > 0
    ensures Greatest(ranks, m)
    decreases |ranks|
  {
    var k :| k in ranks;
    var rest := ranks - {k};
    if rest == map[] {
      assert forall p :: p in ranks ==> p == k || p in rest;
      m := k;
    } else {
      var best := HighestExists(rest);
      m := if Compare(ranks[k], ranks[best]) > 0 then k else best;
      forall p | p in ranks && p != m ensures Compare(ranks[m], ranks[p]) > 0 {
        if p != k { assert p in rest && ranks[p] == rest[p]; }
      }
    }
  }

  // ---------- what every controller knows ----------

  ghost predicate Knows(cfg: Config, p: PeerId, c: Controller)
    requires p in cfg.ranks && p in cfg.starts
  {
    && c.local == cfg.AnnouncementOf(p)
    && c.startedAt == cfg.starts[p]
    && forall k :: k in c.observed ==>
         k.0 == cfg.lastTerm + 1 && k.1 in cfg.ranks && c.observed[k] == cfg.AnnouncementOf(k.1)
  }

  lemma StepKnows(cfg: Config, p: PeerId, c: Controller, e: Event)
    requires cfg.Proper() && p in cfg.ranks && Sane(c) && Knows(cfg, p, c)
    ensures Knows(cfg, p, Step(cfg, p, c, e))
  {
  }

  lemma {:induction false} KnowsHolds(cfg: Config, events: seq<Event>, p: PeerId)
    requires cfg.Proper() && p in cfg.ranks
    ensures Knows(cfg, p, After(cfg, events, p))
  {
    if events != [] {
      KnowsHolds(cfg, events[..|events| - 1], p);
      StepKnows(cfg, p, After(cfg, events[..|events| - 1], p), events[|events| - 1]);
    }
  }

  // ---------- a peer that has heard a higher one ----------

  ghost predicate Held(c: Controller) { c.higherObservedAt.Some? && !c.coordinator }

  lemma {:induction false} HeldStays(cfg: Config, events: seq<Event>, n: nat, p: PeerId)
    requires cfg.Proper() && n <= |events| && p in cfg.ranks && Held(After(cfg, events[..n], p))
    ensures Held(After(cfg, events, p))
  {
    if n < |events| {
      assert events[..|events| - 1][..n] == events[..n];
      HeldStays(cfg, events[..|events| - 1], n, p);
    } else {
      assert events[..n] == events;
    }
  }

  // No peer that received anything of a higher candidate before its promotion ever
  // promotes itself, at whatever times it is polled.
  lemma HeardHigherNeverPromoted(cfg: Config, events: seq<Event>, n: nat)
    requires cfg.Proper() && n < |events| && events[n].Deliver?
    requires events[n].from in cfg.ranks && events[n].to in cfg.ranks
    requires Compare(cfg.ranks[events[n].from], cfg.ranks[events[n].to]) > 0
    requires !After(cfg, events[..n], events[n].to).coordinator
    ensures !After(cfg, events, events[n].to).coordinator
  {
    var p := events[n].to;
    KnowsHolds(cfg, events[..n], p);
    assert events[..n + 1][..n] == events[..n];
    HeldStays(cfg, events, n + 1, p);
  }

  // ---------- announcements inside the window ----------

  ghost predicate Delivered(events: seq<Event>, from: PeerId, to: PeerId) {
    exists m :: 0 <= m < |events| && events[m].Deliver? && events[m].from == from && events[m].to == to
  }

  predicate LatePoll(cfg: Config, e: Event, p: PeerId) {
    e.PollAt? && e.peer == p && p in cfg.starts && e.now >= cfg.starts[p] + ANNOUNCEMENT_WINDOW_MS
  }

  // Before a peer is polled past its window, it has heard every other peer.
  ghost predicate Prompt(cfg: Config, events: seq<Event>) {
    forall n, p, q :: 0 <= n < |events| && p in cfg.ranks && q in cfg.ranks && LatePoll(cfg, events[n], p) && p != q ==>
      Delivered(events[..n], q, p)
  }

  lemma {:induction false} DeliveredIsObserved(cfg: Config, events: seq<Event>, q: PeerId, p: PeerId)
    requires cfg.Proper() && q in cfg.ranks && p in cfg.ranks && Delivered(events, q, p)
    ensures (cfg.lastTerm + 1, q) in After(cfg, events, p).observed
  {
    var before := events[..|events| - 1];
    KnowsHolds(cfg, before, p);
    var m :| 0 <= m < |events| && events[m].Deliver? && events[m].from == q && events[m].to == p;
    if m < |before| {
      assert before[m] == events[m];
      DeliveredIsObserved(cfg, before, q, p);
    }
  }

  lemma HeardHigherMayNotClaim(cfg: Config, events: seq<Event>, m: PeerId, p: PeerId)
    requires cfg.Proper() && cfg.IsHighest(m) && p in cfg.ranks && p != m && Delivered(events, m, p)
    ensures !MayClaimNow(After(cfg, events, p))
  {
    DeliveredIsObserved(cfg, events, m, p);
    KnowsHolds(cfg, events, p);
    var c := After(cfg, events, p);
    assert c.observed[(cfg.lastTerm + 1, m)] == cfg.AnnouncementOf(m);
  }

  lemma PromptPrefix(cfg: Config, events: seq<Event>)
    requires Prompt(cfg, events) && events != []
    ensures Prompt(cfg, events[..|events| - 1])
  {
    var before := events[..|events| - 1];
    forall n, a, q | 0 <= n < |before| && a in cfg.ranks && q in cfg.ranks && LatePoll(cfg, before[n], a) && a != q
      ensures Delivered(before[..n], q, a)
    {
      assert before[n] == events[n] && before[..n] == events[..n];
    }
  }

  lemma StepWithoutClaim(cfg: Config, p: PeerId, c: Controller, e: Event)
    requires cfg.Proper() && p in cfg.ranks && Sane(c) && Knows(cfg, p, c) && c.claimSentAt.None?
    requires LatePoll(cfg, e, p) ==> !MayClaimNow(c)
    ensures Step(cfg, p, c, e).claimSentAt.None?
  {
  }

  // Nobody but the highest peer claims.
  lemma {:induction false} OthersNeverClaim(cfg: Config, events: seq<Event>, m: PeerId, p: PeerId)
    requires cfg.Proper() && Prompt(cfg, events) && cfg.IsHighest(m) && p in cfg.ranks && p != m
    ensures After(cfg, events, p).claimSentAt.None?
  {
    if events != [] {
      var before, e := events[..|events| - 1], events[|events| - 1];
      PromptPrefix(cfg, events);
      OthersNeverClaim(cfg, before, m, p);
      KnowsHolds(cfg, before, p);
      if LatePoll(cfg, e, p) { HeardHigherMayNotClaim(cfg, before, m, p); }
      StepWithoutClaim(cfg, p, After(cfg, before, p), e);
    }
  }

  // ---------- a peer that has heard nothing higher ----------

  predicate BringsHigher(cfg: Config, e: Event, p: PeerId)
    requires p in cfg.ranks
  {
    e.Deliver? && e.to == p && e.from in cfg.ranks && Compare(cfg.ranks[e.from], cfg.ranks[p]) > 0
  }

  predicate Unheard(cfg: Config, events: seq<Event>, p: PeerId)
    requires p in cfg.ranks
  {
    forall n :: 0 <= n < |events| ==> !BringsHigher(cfg, events[n], p)
  }

  ghost predicate Clear(c: Controller) { c.higherObservedAt.None? && MayClaimNow(c) }

  lemma {:induction false} UnheardStaysClear(cfg: Config, events: seq<Event>, p: PeerId)
    requires cfg.Proper() && p in cfg.ranks && Unheard(cfg, events, p)
    ensures Clear(After(cfg, events, p))
  {
    if events != [] {
      var before, e := events[..|events| - 1], events[|events| - 1];
      UnheardStaysClear(cfg, before, p);
      KnowsHolds(cfg, before, p);
      assert !BringsHigher(cfg, e, p);
      StepClear(cfg, p, After(cfg, before, p), e);
    }
  }

  lemma StepClear(cfg: Config, p: PeerId, c: Controller, e: Event)
    requires cfg.Proper() && p in cfg.ranks && Sane(c) && Knows(cfg, p, c) && Clear(c) && !BringsHigher(cfg, e, p)
    ensures Clear(Step(cfg, p, c, e))
  {
  }

  // The claim of a peer is not later than the poll it was made at.
  predicate PolledBy(events: seq<Event>, p: PeerId, t: int) {
    forall a :: 0 <= a < |events| && events[a].PollAt? && events[a].peer == p ==> events[a].now <= t
  }

  lemma {:induction false} ClaimNotAfter(cfg: Config, events: seq<Event>, m: PeerId, t: int)
    requires cfg.Proper() && m in cfg.ranks && PolledBy(events, m, t)
    ensures After(cfg, events, m).claimSentAt.Some? ==> After(cfg, events, m).claimSentAt.value <= t
  {
    if events != [] {
      ClaimNotAfter(cfg, events[..|events| - 1], m, t);
      assert events[|events| - 1].PollAt? && events[|events| - 1].peer == m ==> events[|events| - 1].now <= t;
    }
  }

  // A claim and a promotion are never taken back.
  lemma {:induction false} ClaimStays(cfg: Config, events: seq<Event>, n: nat, m: PeerId)
    requires cfg.Proper() && n <= |events| && m in cfg.ranks
    ensures After(cfg, events[..n], m).claimSentAt.Some? ==>
              After(cfg, events, m).claimSentAt == After(cfg, events[..n], m).claimSentAt
    ensures After(cfg, events[..n], m).coordinator ==> After(cfg, events, m).coordinator
  {
    if n < |events| {
      assert events[..|events| - 1][..n] == events[..n];
      ClaimStays(cfg, events[..|events| - 1], n, m);
    } else {
      assert events[..n] == events;
    }
  }

  lemma PollClaims(cfg: Config, events: seq<Event>, p: PeerId, i: nat)
    requires cfg.Proper() && p in cfg.ranks && Unheard(cfg, events, p) && i < |events| && LatePoll(cfg, events[i], p)
    requires PolledBy(events[..i + 1], p, events[i].now)
    ensures After(cfg, events[..i + 1], p).claimSentAt.Some?
    ensures After(cfg, events[..i + 1], p).claimSentAt.value <= events[i].now
  {
    assert events[..i + 1][..i] == events[..i];
    UnheardStaysClear(cfg, events[..i], p);
    KnowsHolds(cfg, events[..i], p);
    ClaimNotAfter(cfg, events[..i + 1], p, events[i].now);
  }

  // The peer was polled after its window, its clock not having run backwards until then,
  // and again at least 500 ms later.
  predicate PolledTwice(cfg: Config, events: seq<Event>, p: PeerId, i: nat, j: nat) {
    && i < j < |events|
    && LatePoll(cfg, events[i], p) && PolledBy(events[..i + 1], p, events[i].now)
    && LatePoll(cfg, events[j], p) && events[j].now >= events[i].now + QUIET_MS
  }

  lemma UnheardPromotes(cfg: Config, events: seq<Event>, p: PeerId, i: nat, j: nat)
    requires cfg.Proper() && p in cfg.ranks && Unheard(cfg, events, p) && PolledTwice(cfg, events, p, i, j)
    ensures After(cfg, events, p).coordinator
  {
    PollClaims(cfg, events, p, i);
    assert events[..j][..i + 1] == events[..i + 1];
    ClaimStays(cfg, events[..j], i + 1, p);
    UnheardStaysClear(cfg, events[..j], p);
    assert events[..j + 1][..j] == events[..j];
    ClaimStays(cfg, events, j + 1, p);
  }

  // Whatever is lost: a peer polled twice becomes coordinator exactly when nothing of a
  // higher peer reached it, provided that what reached it did so before its promotion.
  lemma CoordinatorIffUnheard(cfg: Config, events: seq<Event>, p: PeerId, i: nat, j: nat)
    requires cfg.Proper() && p in cfg.ranks && PolledTwice(cfg, events, p, i, j)
    requires forall n: nat :: n < |events| && BringsHigher(cfg, events[n], p) ==> !After(cfg, events[..n], p).coordinator
    ensures After(cfg, events, p).coordinator <==> Unheard(cfg, events, p)
  {
    if Unheard(cfg, events, p) {
      UnheardPromotes(cfg, events, p, i, j);
    } else {
      var n: nat :| n < |events| && BringsHigher(cfg, events[n], p);
      HeardHigherNeverPromoted(cfg, events, n);
    }
  }

  // Announcements inside the window: exactly one peer becomes coordinator, the one of
  // highest rank, once it was polled twice. It has the greatest application priority, then
  // the greatest capability score, then the greatest PeerId.
  lemma ExactlyOneCoordinator(cfg: Config, events: seq<Event>, m: PeerId, i: nat, j: nat, p: PeerId)
    requires cfg.Proper() && Prompt(cfg, events) && cfg.IsHighest(m) && PolledTwice(cfg, events, m, i, j)
    requires p in cfg.ranks
    ensures After(cfg, events, p).coordinator <==> p == m
    ensures After(cfg, events, p).coordinator <==> Greatest(cfg.ranks, p)
  {
    HighestIsGreatest(cfg, m);
    HighestIsGreatest(cfg, p);
    if p == m {
      assert Unheard(cfg, events, m);
      UnheardPromotes(cfg, events, m, i, j);
    } else {
      OthersNeverClaim(cfg, events, m, p);
    }
  }
}
