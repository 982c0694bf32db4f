/**
 The checkpoint publications of one GroupSession: which publication is the latest, which
 peers have an operation of which publication in flight, and how supersession, leaves,
 authority loss and close settle the peers that still wait.
 */
module CheckpointGroup {
  import opened Types
  import opened CheckpointHandle
  import CH = CheckpointHandle

  const MAX_PUBLICATION_ID: nat := 0x7fff_ffff_ffff_ffff
  const PUBLISH_WINDOW_MS: nat := 1000
  const PUBLISH_LIMIT: nat := 4

  datatype Group = Group(
    handles: map<nat, Handle>,
    latest: Option<nat>,
    bytes: Option<seq<Byte>>,
    inFlight: map<nat, set<PeerId>>,
    nextId: nat,
    times: seq<nat>)

  // ---------- the specification ----------

  // Gives every waiting peer of `who` the same result.
  function Settled(h: Handle, who: set<PeerId>, r: PeerResult): Handle {
    if h.Terminal() || (forall p :: p in who ==> !h.Waits(p)) then h
    else
      var results := map p | p in h.results :: if p in who && h.results[p] == Pending then r else h.results[p];
      if Decided(results)
      then Handle(results, if AllAcknowledged(results) then Durable else NotDurable, h.completions + 1)
      else h.(results := results)
  }

  function InFlightOf(g: Group, pub: nat): set<PeerId> { if pub in g.inFlight then g.inFlight[pub] else {} }

  // The latest publication gives up on every peer without an operation in flight.
  function AfterSupersession(g: Group): Group {
    if g.latest.None? || g.latest.value !in g.handles || g.handles[g.latest.value].Terminal() then g
    else
      var pub := g.latest.value;
      var h := g.handles[pub];
      g.(handles := g.handles[pub := Settled(h, h.results.Keys - InFlightOf(g, pub), Superseded)],
         inFlight := if InFlightOf(g, pub) == {} then g.inFlight - {pub} else g.inFlight)
  }

  function Recent(times: seq<nat>, now: nat): seq<nat> {
    if times != [] && now >= times[0] && now - times[0] >= PUBLISH_WINDOW_MS then Recent(times[1..], now) else times
  }

  // The peers whose acknowledgement a publication needs.
  datatype Requirement = NoPeers | AllMembers | Explicit(peers: seq<PeerId>)

  function Members(peers: seq<PeerId>): set<PeerId> { set p | p in peers }

  // `members` are the committed members other than the local peer.
  function Required(requirement: Requirement, members: set<PeerId>): Result<set<PeerId>> {
    match requirement
    case NoPeers => Ok({})
    case AllMembers => Ok(members)
    case Explicit(peers) =>
      if |peers| != |Members(peers)| || !(Members(peers) <= members) then Err(InvalidArgument) else Ok(Members(peers))
  }

  function Publish(g: Group, permitted: bool, requirement: Requirement, members: set<PeerId>, bytes: seq<Byte>, now: nat)
    : (Result<nat>, Group)
  {
    if !permitted then (Err(InvalidState), g)
    else if |bytes| > MAX_CHECKPOINT_BYTES then (Err(MessageTooLarge), g)
    else
      match Required(requirement, members)
      case Err(e) => (Err(e), g)
      case Ok(required) => Admit(g.(times := Recent(g.times, now)), required, bytes, now)
  }

  function Admit(g: Group, required: set<PeerId>, bytes: seq<Byte>, now: nat): (Result<nat>, Group) {
    if |g.times| >= PUBLISH_LIMIT || g.nextId > MAX_PUBLICATION_ID then (Err(ResourceExhausted), g)
    else (Ok(g.nextId), Extended(AfterSupersession(g), required, bytes, now))
  }

  // The new publication, once the old latest has been superseded.
  function Extended(s: Group, required: set<PeerId>, bytes: seq<Byte>, now: nat): Group {
    s.(handles := s.handles[s.nextId := Accepted(required)], latest := Some(s.nextId), bytes := Some(bytes),
       nextId := s.nextId + 1, times := s.times + [now])
  }

  function Started(g: Group, pub: nat, p: PeerId): Group {
    if pub !in g.handles || g.handles[pub].Terminal() || p !in g.handles[pub].results then g
    else g.(inFlight := g.inFlight[pub := InFlightOf(g, pub) + {p}])
  }

  function Landed(g: Group, pub: nat, p: PeerId): Group {
    if pub in g.inFlight then g.(inFlight := g.inFlight[pub := g.inFlight[pub] - {p}]) else g
  }

  // An operation of `pub` to `p` ended; only the first result of a waiting peer counts.
  function Finished(g: Group, pub: nat, p: PeerId, r: PeerResult): Group {
    var landed := Landed(g, pub, p);
    if pub !in g.handles then landed
    else
      var (changed, h) := SetResult(g.handles[pub], Outcome(p, r));
      if !changed then landed
      else landed.(handles := g.handles[pub := h],
                   inFlight := if pub in landed.inFlight && landed.inFlight[pub] == {} then landed.inFlight - {pub}
                               else landed.inFlight)
  }

  // The publications that are not certainly over.
  predicate Open(g: Group, pub: nat) { g.latest == Some(pub) || pub in g.inFlight }

  function PeerGone(g: Group, p: PeerId): Group {
    g.(handles := map pub | pub in g.handles ::
         if Open(g, pub) then SetResult(g.handles[pub], Outcome(p, PeerLeft)).1 else g.handles[pub],
       inFlight := map pub | pub in g.inFlight && g.inFlight[pub] - {p} != {} :: g.inFlight[pub] - {p})
  }

  // Every open publication is settled for every peer still waiting.
  function FailAll(g: Group, r: PeerResult): Group {
    g.(handles := map pub | pub in g.handles ::
         if Open(g, pub) then Settled(g.handles[pub], g.handles[pub].results.Keys, r) else g.handles[pub],
       inFlight := map[])
  }

  // ---------- what the group keeps ----------

  // A publication that is not the latest waits only for peers with an operation in flight.
  ghost predicate WaitsOnlyInFlight(g: Group, pub: nat)
    requires pub in g.handles
  {
    g.latest == Some(pub) || forall p :: g.handles[pub].Waits(p) ==> p in InFlightOf(g, pub)
  }

  ghost predicate Inv(g: Group) {
    && (g.latest.Some? ==> g.latest.value in g.handles && g.bytes.Some?)
    && (forall pub :: pub in g.handles ==> pub < g.nextId && Consistent(g.handles[pub]) && WaitsOnlyInFlight(g, pub))
    && (forall pub :: pub in g.inFlight ==> pub in g.handles && g.inFlight[pub] <= g.handles[pub].results.Keys)
  }

  // A handle only ever moves forward: a result once given stays, and a complete handle
  // does not change at all.
  ghost predicate Forward(h: Handle, h': Handle) {
    && h'.results.Keys == h.results.Keys
    && (h.Terminal() ==> h' == h)
    && (forall p :: p in h.results && h.results[p] != Pending ==> h'.results[p] == h.results[p])
    && h.completions <= h'.completions
  }

  ghost predicate GroupForward(g: Group, g': Group) {
    forall pub :: pub in g.handles ==> pub in g'.handles && Forward(g.handles[pub], g'.handles[pub])
  }

  // No peer is newly counted as acknowledged.
  ghost predicate NoNewAck(g: Group, g': Group) {
    forall pub, p :: pub in g'.handles && p in g'.handles[pub].results && g'.handles[pub].results[p] == Acknowledged ==>
      pub in g.handles && p in g.handles[pub].results && g.handles[pub].results[p] == Acknowledged
  }

  lemma SettledForward(h: Handle, who: set<PeerId>, r: PeerResult)
    requires Consistent(h) && r != Pending && r != Acknowledged
    ensures Consistent(Settled(h, who, r)) && Forward(h, Settled(h, who, r))
    ensures forall p :: Settled(h, who, r).Waits(p) <==> h.Waits(p) && p !in who
    ensures forall p :: p in h.results && Settled(h, who, r).results[p] == Acknowledged ==> h.results[p] == Acknowledged
  {
    var h' := Settled(h, who, r);
    if !h.Terminal() && exists p :: p in who && h.Waits(p) {
      var p :| p in who && h.Waits(p);
      assert h'.results[p] == r;
    }
  }

  lemma SupersededMoves(g: Group, pub: nat)
    requires Inv(g) && pub in g.handles
    ensures pub in AfterSupersession(g).handles
    ensures var h, h' := g.handles[pub], AfterSupersession(g).handles[pub];
            && Consistent(h') && Forward(h, h')
            && (forall p :: h'.Waits(p) ==> h.Waits(p) && p in InFlightOf(AfterSupersession(g), pub))
            && (forall p :: p in h'.results && h'.results[p] == Acknowledged ==> h.results[p] == Acknowledged)
  {
    SettledForward(g.handles[pub], g.handles[pub].results.Keys - InFlightOf(g, pub), Superseded);
    assert WaitsOnlyInFlight(g, pub);
  }

  lemma SupersededOne(g: Group, pub: nat)
    requires Inv(g) && pub in g.handles
    ensures pub in AfterSupersession(g).handles
    ensures WaitsOnlyInFlight(AfterSupersession(g), pub) && WaitsOnlyInFlight(AfterSupersession(g).(latest := None), pub)
  {
    SupersededMoves(g, pub);
  }

  lemma SupersededKeeps(g: Group)
    requires Inv(g)
    ensures Inv(AfterSupersession(g)) && GroupForward(g, AfterSupersession(g)) && NoNewAck(g, AfterSupersession(g))
    ensures forall pub :: pub in AfterSupersession(g).handles ==> WaitsOnlyInFlight(AfterSupersession(g).(latest := None), pub)
    ensures AfterSupersession(g).nextId == g.nextId && AfterSupersession(g).latest == g.latest
    ensures AfterSupersession(g).handles.Keys == g.handles.Keys
  {
    var g' := AfterSupersession(g);
    assert g'.handles.Keys == g.handles.Keys;
    forall pub | pub in g.handles
      ensures WaitsOnlyInFlight(g', pub) && WaitsOnlyInFlight(g'.(latest := None), pub)
    {
      SupersededOne(g, pub);
    }
    forall pub | pub in g.handles
      ensures Consistent(g'.handles[pub]) && Forward(g.handles[pub], g'.handles[pub])
      ensures forall p :: p in g'.handles[pub].results && g'.handles[pub].results[p] == Acknowledged ==>
                g.handles[pub].results[p] == Acknowledged
    {
      SupersededMoves(g, pub);
    }
  }

  lemma ExtendedKeeps(s: Group, required: set<PeerId>, bytes: seq<Byte>, now: nat)
    requires Inv(s)
    requires forall pub :: pub in s.handles ==> WaitsOnlyInFlight(s.(latest := None), pub)
    ensures Inv(Extended(s, required, bytes, now)) && GroupForward(s, Extended(s, required, bytes, now))
    ensures NoNewAck(s, Extended(s, required, bytes, now))
  {
    var g' := Extended(s, required, bytes, now);
    FirstOutcomeDecides(required, []);
    forall pub | pub in g'.handles ensures WaitsOnlyInFlight(g', pub) {
      if pub != s.nextId { assert WaitsOnlyInFlight(s.(latest := None), pub); }
    }
  }

  lemma AdmitKeeps(g: Group, required: set<PeerId>, bytes: seq<Byte>, now: nat)
    requires Inv(g)
    ensures var (r, g') := Admit(g, required, bytes, now);
            && Inv(g') && GroupForward(g, g') && NoNewAck(g, g')
            && (r.Err? ==> g' == g)
            && (r.Ok? ==> Accepts(g, g', r.value, required, bytes))
  {
    if Admit(g, required, bytes, now).0.Ok? {
      SupersededKeeps(g);
      ExtendedKeeps(AfterSupersession(g), required, bytes, now);
    }
  }

  // The group took a new publication over `required`.
  predicate Accepts(g: Group, g': Group, pub: nat, required: set<PeerId>, bytes: seq<Byte>) {
    && pub == g.nextId && pub !in g.handles && g'.handles.Keys == g.handles.Keys + {pub}
    && g'.handles[pub] == Accepted(required) && g'.latest == Some(pub) && g'.bytes == Some(bytes)
  }

  lemma PublishKeeps(g: Group, permitted: bool, requirement: Requirement, members: set<PeerId>, bytes: seq<Byte>, now: nat)
    requires Inv(g)
    ensures var (r, g') := Publish(g, permitted, requirement, members, bytes, now);
            && Inv(g') && GroupForward(g, g') && NoNewAck(g, g')
            && (r.Err? ==> g' == g.(times := g'.times))
            && (r.Ok? ==> Required(requirement, members).Ok? && Accepts(g, g', r.value, Required(requirement, members).value, bytes))
  {
    var recent := g.(times := Recent(g.times, now));
    TimesDoNotMatter(g, recent.times);
    if Required(requirement, members).Ok? { AdmitKeeps(recent, Required(requirement, members).value, bytes, now); }
  }

  lemma TimesDoNotMatter(g: Group, times: seq<nat>)
    requires Inv(g)
    ensures Inv(g.(times := times))
  {
    forall pub | pub in g.handles ensures WaitsOnlyInFlight(g.(times := times), pub) { assert WaitsOnlyInFlight(g, pub); }
  }

  lemma StartedKeeps(g: Group, pub: nat, p: PeerId)
    requires Inv(g)
    ensures Inv(Started(g, pub, p)) && Started(g, pub, p).handles == g.handles
  {
    var g' := Started(g, pub, p);
    forall other | other in g'.handles ensures WaitsOnlyInFlight(g', other) { assert WaitsOnlyInFlight(g, other); }
  }

  lemma FinishedWaits(g: Group, pub: nat, p: PeerId, r: PeerResult, other: nat)
    requires Inv(g) && r != Pending && other in g.handles
    ensures other in Finished(g, pub, p, r).handles && WaitsOnlyInFlight(Finished(g, pub, p, r), other)
  {
    assert WaitsOnlyInFlight(g, other);
  }

  lemma FinishedMoves(g: Group, pub: nat, p: PeerId, r: PeerResult, other: nat)
    requires Inv(g) && r != Pending && other in g.handles
    ensures other in Finished(g, pub, p, r).handles
    ensures Consistent(Finished(g, pub, p, r).handles[other]) && Forward(g.handles[other], Finished(g, pub, p, r).handles[other])
    ensures forall q :: q in g.handles[other].results && Finished(g, pub, p, r).handles[other].results[q] != g.handles[other].results[q]
              ==> other == pub && q == p && Finished(g, pub, p, r).handles[other].results[q] == r
  {
    TerminalIsFinal(g.handles[other], Outcome(p, r));
  }

  lemma FinishedResult(g: Group, pub: nat, p: PeerId, r: PeerResult, other: nat, q: PeerId)
    requires other in g.handles && q in g.handles[other].results && Consistent(g.handles[other])
    ensures other in Finished(g, pub, p, r).handles && q in Finished(g, pub, p, r).handles[other].results
    ensures Finished(g, pub, p, r).handles[other].results[q]
            == (if other == pub && q == p && g.handles[other].results[q] == Pending then r else g.handles[other].results[q])
  {
  }

  lemma FinishedKeys(g: Group, pub: nat, p: PeerId, r: PeerResult)
    ensures Finished(g, pub, p, r).handles.Keys == g.handles.Keys
    ensures Finished(g, pub, p, r).latest == g.latest && Finished(g, pub, p, r).bytes == g.bytes && Finished(g, pub, p, r).nextId == g.nextId
    ensures forall other :: other in Finished(g, pub, p, r).inFlight ==>
              other in g.inFlight && Finished(g, pub, p, r).inFlight[other] <= g.inFlight[other]
  {
  }

  lemma FinishedKeeps(g: Group, pub: nat, p: PeerId, r: PeerResult)
    requires Inv(g) && r != Pending
    ensures Inv(Finished(g, pub, p, r)) && GroupForward(g, Finished(g, pub, p, r))
    ensures r != Acknowledged ==> NoNewAck(g, Finished(g, pub, p, r))
  {
    FinishedKeys(g, pub, p, r);
    forall other | other in g.handles
      ensures WaitsOnlyInFlight(Finished(g, pub, p, r), other)
      ensures Consistent(Finished(g, pub, p, r).handles[other]) && Forward(g.handles[other], Finished(g, pub, p, r).handles[other])
    {
      FinishedWaits(g, pub, p, r, other);
      FinishedMoves(g, pub, p, r, other);
    }
    if r != Acknowledged {
      forall other, q | other in g.handles && q in g.handles[other].results
                        && Finished(g, pub, p, r).handles[other].results[q] == Acknowledged
        ensures g.handles[other].results[q] == Acknowledged
      {
        FinishedMoves(g, pub, p, r, other);
      }
    }
  }

  lemma PeerGoneMoves(g: Group, p: PeerId, pub: nat)
    requires Inv(g) && pub in g.handles
    ensures pub in PeerGone(g, p).handles
    ensures var h' := PeerGone(g, p).handles[pub];
            && WaitsOnlyInFlight(PeerGone(g, p), pub) && Consistent(h') && Forward(g.handles[pub], h') && !h'.Waits(p)
            && (forall q :: q in h'.results && h'.results[q] == Acknowledged ==> g.handles[pub].results[q] == Acknowledged)
  {
    assert WaitsOnlyInFlight(g, pub);
    TerminalIsFinal(g.handles[pub], Outcome(p, PeerLeft));
  }

  lemma PeerGoneKeeps(g: Group, p: PeerId)
    requires Inv(g)
    ensures Inv(PeerGone(g, p)) && GroupForward(g, PeerGone(g, p)) && NoNewAck(g, PeerGone(g, p))
    ensures forall pub :: pub in PeerGone(g, p).handles ==> !PeerGone(g, p).handles[pub].Waits(p)
  {
    forall pub | pub in g.handles
      ensures var h' := PeerGone(g, p).handles[pub];
              && WaitsOnlyInFlight(PeerGone(g, p), pub) && Consistent(h') && Forward(g.handles[pub], h') && !h'.Waits(p)
              && (forall q :: q in h'.results && h'.results[q] == Acknowledged ==> g.handles[pub].results[q] == Acknowledged)
    {
      PeerGoneMoves(g, p, pub);
    }
  }

  // Losing authority or closing leaves no publication undecided.
  lemma FailAllKeeps(g: Group, r: PeerResult)
    requires Inv(g) && r != Pending && r != Acknowledged
    ensures Inv(FailAll(g, r)) && GroupForward(g, FailAll(g, r)) && NoNewAck(g, FailAll(g, r))
    ensures forall pub :: pub in FailAll(g, r).handles ==> FailAll(g, r).handles[pub].Terminal()
  {
    var g' := FailAll(g, r);
    forall pub | pub in g'.handles
      ensures WaitsOnlyInFlight(g', pub) && Consistent(g'.handles[pub]) && Forward(g.handles[pub], g'.handles[pub])
      ensures g'.handles[pub].Terminal()
    {
      assert WaitsOnlyInFlight(g, pub);
      SettledForward(g.handles[pub], g.handles[pub].results.Keys, r);
    }
    forall pub, p | pub in g'.handles && p in g'.handles[pub].results && g'.handles[pub].results[p] == Acknowledged
      ensures g.handles[pub].results[p] == Acknowledged
    {
      SettledForward(g.handles[pub], g.handles[pub].results.Keys, r);
    }
  }

  // ---------- what the operations decide ----------

  // A list may be required when it names members of the group, each once.
  ghost predicate MayRequire(requirement: Requirement, members: set<PeerId>) {
    requirement.Explicit? ==>
      && (forall i, j :: 0 <= i < j < |requirement.peers| ==> requirement.peers[i] != requirement.peers[j])
      && (forall p :: p in requirement.peers ==> p in members)
  }

  // The publication waits for this peer: nobody, every member, or exactly those listed.
  predicate Awaits(requirement: Requirement, members: set<PeerId>, p: PeerId) {
    match requirement
    case NoPeers => false
    case AllMembers => p in members
    case Explicit(peers) => p in peers
  }

  // A new handle over exactly the awaited peers, all still waiting; without one it is
  // durable at once.
  ghost predicate AsRequired(requirement: Requirement, members: set<PeerId>, h: Handle) {
    && (forall p :: p in h.results <==> Awaits(requirement, members, p))
    && (forall p :: p in h.results ==> h.results[p] == Pending)
    && (if forall p :: !Awaits(requirement, members, p) then h.status == Durable && h.completions == 1
        else h.status == Undecided && h.completions == 0)
  }

  lemma {:induction false} Distinct(peers: seq<PeerId>)
    ensures |Members(peers)| <= |peers|
    ensures |Members(peers)| == |peers| <==> forall i, j :: 0 <= i < j < |peers| ==> peers[i] != peers[j]
  {
    if peers != [] {
      var front, last := peers[..|peers| - 1], peers[|peers| - 1];
      Distinct(front);
      assert peers == front + [last];
      assert Members(peers) == Members(front) + {last};
      if last in front {
        var i :| 0 <= i < |front| && front[i] == last;
        assert peers[i] == peers[|peers| - 1];
        assert Members(peers) == Members(front);
      } else {
        assert forall i, j :: 0 <= i < j < |front| ==> front[i] == peers[i] && front[j] == peers[j];
      }
    }
  }

  // Of times in order, exactly those of the last second remain.
  lemma {:induction false} RecentMeaning(times: seq<nat>, now: nat)
    requires forall i, j :: 0 <= i < j < |times| ==> times[i] <= times[j]
    requires forall i :: 0 <= i < |times| ==> times[i] <= now
    ensures |Recent(times, now)| <= |times| && Recent(times, now) == times[|times| - |Recent(times, now)|..]
    ensures forall i :: 0 <= i < |times| ==> (now - times[i] < 1000 <==> i >= |times| - |Recent(times, now)|)
  {
    if times != [] && now - times[0] >= PUBLISH_WINDOW_MS {
      assert times == [times[0]] + times[1..];
      RecentMeaning(times[1..], now);
    }
  }

  // Every outcome of a publication, in the order of the checks, and what the new handle
  // waits for.
  lemma PublicationDecided(g: Group, permitted: bool, requirement: Requirement, members: set<PeerId>, bytes: seq<Byte>, now: nat)
    requires Inv(g)
    ensures var (r, g') := Publish(g, permitted, requirement, members, bytes, now);
            var fits := permitted && |bytes| <= MAX_CHECKPOINT_BYTES;
            var room := |Recent(g.times, now)| < PUBLISH_LIMIT && g.nextId <= MAX_PUBLICATION_ID;
            && (r == Err(InvalidState) <==> !permitted)
            && (r == Err(MessageTooLarge) <==> permitted && |bytes| > MAX_CHECKPOINT_BYTES)
            && (r == Err(InvalidArgument) <==> fits && !MayRequire(requirement, members))
            && (r == Err(ResourceExhausted) <==> fits && MayRequire(requirement, members) && !room)
            && (r.Ok? <==> fits && MayRequire(requirement, members) && room)
            && (r.Ok? ==>
                  && r.value == g.nextId && g'.nextId == g.nextId + 1 && g'.times == Recent(g.times, now) + [now]
                  && r.value in g'.handles && AsRequired(requirement, members, g'.handles[r.value]))
  {
    if requirement.Explicit? { Distinct(requirement.peers); }
    if Required(requirement, members).Ok? {
      RequiredPeers(requirement, members);
      AcceptedAsRequired(requirement, members);
    }
  }

  lemma RequiredPeers(requirement: Requirement, members: set<PeerId>)
    requires Required(requirement, members).Ok?
    ensures forall p :: p in Required(requirement, members).value <==> Awaits(requirement, members, p)
  {
  }

  lemma AcceptedAsRequired(requirement: Requirement, members: set<PeerId>)
    requires Required(requirement, members).Ok?
    ensures AsRequired(requirement, members, Accepted(Required(requirement, members).value))
  {
    RequiredPeers(requirement, members);
    var required := Required(requirement, members).value;
    if required != {} {
      var p :| p in required;
      assert Awaits(requirement, members, p);
    }
  }

  lemma SupersededResult(g: Group, pub: nat, p: PeerId)
    requires Inv(g) && pub in g.handles && p in g.handles[pub].results
    ensures pub in AfterSupersession(g).handles && p in AfterSupersession(g).handles[pub].results
    ensures var flying := pub in g.inFlight && p in g.inFlight[pub];
            AfterSupersession(g).handles[pub].results[p]
            == (if g.latest == Some(pub) && g.handles[pub].results[p] == Pending && !flying then Superseded else g.handles[pub].results[p])
  {
    SettledOne(g.handles[pub], g.handles[pub].results.Keys - InFlightOf(g, pub), Superseded, p);
  }

  // A superseded publication is tracked on only for what it has in flight.
  lemma SupersededTracking(g: Group, permitted: bool, requirement: Requirement, members: set<PeerId>, bytes: seq<Byte>, now: nat, pub: nat)
    requires Publish(g, permitted, requirement, members, bytes, now).0.Ok?
    requires g.latest == Some(pub) && pub in g.handles && !g.handles[pub].Terminal()
    ensures var g' := Publish(g, permitted, requirement, members, bytes, now).1;
            && (pub in g'.inFlight <==> pub in g.inFlight && g.inFlight[pub] != {})
            && g'.inFlight - {pub} == g.inFlight - {pub}
  {
  }

  lemma PublishedOver(g: Group, permitted: bool, requirement: Requirement, members: set<PeerId>, bytes: seq<Byte>, now: nat, pub: nat)
    requires Inv(g) && Publish(g, permitted, requirement, members, bytes, now).0.Ok? && pub in g.handles
    ensures var (was, g') := (AfterSupersession(g.(times := Recent(g.times, now))), Publish(g, permitted, requirement, members, bytes, now).1);
            pub in was.handles && pub in g'.handles && g'.handles[pub] == was.handles[pub]
  {
  }

  // A publication supersedes the latest one: whoever still waits there without an operation
  // in flight gets that result, and nothing else is decided anywhere.
  lemma SupersessionDecided(g: Group, permitted: bool, requirement: Requirement, members: set<PeerId>, bytes: seq<Byte>, now: nat,
                            pub: nat, p: PeerId)
    requires Inv(g) && Publish(g, permitted, requirement, members, bytes, now).0.Ok?
    requires pub in g.handles && p in g.handles[pub].results
    ensures var g' := Publish(g, permitted, requirement, members, bytes, now).1;
            var flying := pub in g.inFlight && p in g.inFlight[pub];
            && pub in g'.handles && p in g'.handles[pub].results
            && g'.handles[pub].results[p]
               == (if g.latest == Some(pub) && g.handles[pub].results[p] == Pending && !flying then Superseded else g.handles[pub].results[p])
  {
    TimesDoNotMatter(g, Recent(g.times, now));
    SupersededResult(g.(times := Recent(g.times, now)), pub, p);
    PublishedOver(g, permitted, requirement, members, bytes, now, pub);
  }

  lemma SettledOne(h: Handle, who: set<PeerId>, r: PeerResult, p: PeerId)
    requires Consistent(h) && p in h.results
    ensures p in Settled(h, who, r).results
    ensures Settled(h, who, r).results[p] == if p in who && h.results[p] == Pending then r else h.results[p]
  {
    assert h.Waits(p) <==> h.results[p] == Pending;
  }

  // An operation is tracked from its start for an undecided publication and a peer it
  // requires, until it ends; nothing else that is tracked changes.
  lemma TrackingDecided(g: Group, pub: nat, p: PeerId, r: PeerResult)
    ensures var (started, finished) := (Started(g, pub, p), Finished(g, pub, p, r));
            var counts := pub in g.handles && !g.handles[pub].Terminal() && p in g.handles[pub].results;
            && (!counts ==> started == g)
            && (counts ==> started == g.(inFlight := started.inFlight) && InFlightOf(started, pub) == InFlightOf(g, pub) + {p})
            && InFlightOf(finished, pub) == InFlightOf(g, pub) - {p}
            && (forall other :: other != pub ==>
                  InFlightOf(started, other) == InFlightOf(g, other) && InFlightOf(finished, other) == InFlightOf(g, other))
  {
  }

  // A peer that leaves is decided as left wherever it waited; no other result changes.
  lemma DepartureDecided(g: Group, gone: PeerId, pub: nat, p: PeerId)
    requires Inv(g) && pub in g.handles && p in g.handles[pub].results
    ensures var (left, was) := (PeerGone(g, gone), g.handles[pub].results[p]);
            && pub in left.handles && p in left.handles[pub].results
            && left.handles[pub].results[p] == (if p == gone && was == Pending then PeerLeft else was)
            && (forall other :: other in left.inFlight ==> gone !in left.inFlight[other])
  {
    assert WaitsOnlyInFlight(g, pub);
    assert g.handles[pub].Waits(p) <==> g.handles[pub].results[p] == Pending;
  }

  // A lost authority or a close decides every peer that waited; no other result changes.
  lemma FailureDecided(g: Group, reason: PeerResult, pub: nat, p: PeerId)
    requires Inv(g) && pub in g.handles && p in g.handles[pub].results
    ensures var (failed, was) := (FailAll(g, reason), g.handles[pub].results[p]);
            && pub in failed.handles && p in failed.handles[pub].results
            && failed.handles[pub].results[p] == (if was == Pending then reason else was) && failed.inFlight == map[]
  {
    assert WaitsOnlyInFlight(g, pub);
    assert g.handles[pub].Waits(p) <==> g.handles[pub].results[p] == Pending;
    SettledOne(g.handles[pub], g.handles[pub].results.Keys, reason, p);
  }

  // ---------- the group session ----------

  // Reporting the same result peer by peer settles them all.
  lemma SettledStep(h: Handle, who: set<PeerId>, p: PeerId, r: PeerResult)
    requires Consistent(h) && r != Pending && r != Acknowledged
    ensures SetResult(Settled(h, who, r), Outcome(p, r)).1 == Settled(h, who + {p}, r)
  {
    SettledForward(h, who, r);
    if Settled(h, who, r).Waits(p) && !Settled(h, who, r).Terminal() {
      SettledResults(h, who, p, r);
      SettledForward(h, who + {p}, r);
    }
  }

  lemma SettledResults(h: Handle, who: set<PeerId>, p: PeerId, r: PeerResult)
    requires Consistent(h) && r != Pending && h.Waits(p) && !h.Terminal() && p !in who
    ensures Settled(h, who, r).results[p := r] == Settled(h, who + {p}, r).results
  {
    assert p in who + {p};
  }

  lemma SettledNobody(h: Handle, r: PeerResult)
    ensures Settled(h, {}, r) == h
  {
  }

  class GroupCheckpoints {
    var handles: map<nat, Handle>
    var latest: Option<nat>
    var bytes: Option<seq<Byte>>
    var inFlight: map<nat, set<PeerId>>
    var nextId: nat
    var times: seq<nat>

    ghost function Contents(): Group
      reads this
    {
      Group(handles, latest, bytes, inFlight, nextId, times)
    }

    ghost predicate Valid()
      reads this
    {
      Inv(Contents())
    }

    constructor ()
      ensures Valid() && Contents() == Group(map[], None, None, map[], 1, [])
    {
      handles, latest, bytes, inFlight, nextId, times := map[], None, None, map[], 1, [];
    }

    // Reports one result for each peer of `who`, one after the other.
    method SettleEach(pub: nat, who: set<PeerId>, r: PeerResult)
      requires pub in handles && Consistent(handles[pub]) && r != Pending && r != Acknowledged
      modifies this`handles
      ensures handles == old(handles)[pub := Settled(old(handles)[pub], who, r)]
    {
      ghost var h := handles[pub];
      ghost var was := handles;
      SettledNobody(h, r);
      var rest := who;
      while rest != {}
        invariant rest <= who
        invariant handles == was[pub := Settled(h, who - rest, r)]
        decreases |rest|
      {
        var p :| p in rest;
        SettledStep(h, who - rest, p, r);
        assert who - rest + {p} == who - (rest - {p});
        var settled := SetResult(handles[pub], Outcome(p, r)).1;
        handles := handles[pub := settled];
        rest := rest - {p};
      }
      assert who - {} == who;
    }

    method PublishCoordinatorCheckpoint(permitted: bool, requirement: Requirement, members: set<PeerId>, value: seq<Byte>, now: nat)
      returns (r: Result<nat>)
      requires Valid()
      modifies this
      ensures Valid()
      ensures (r, Contents()) == Publish(old(Contents()), permitted, requirement, members, value, now)
      ensures r.Ok? ==> MayRequire(requirement, members) && r.value in handles && AsRequired(requirement, members, handles[r.value])
    {
      PublicationDecided(Contents(), permitted, requirement, members, value, now);
      PublishKeeps(Contents(), permitted, requirement, members, value, now);
      if !permitted { return Err(InvalidState); }
      if |value| > MAX_CHECKPOINT_BYTES { return Err(MessageTooLarge); }
      var required := Required(requirement, members);
      if required.Err? { return Err(required.error); }
      ForgetOldTimes(now);
      r := AdmitPublication(required.value, value, now);
    }

    method ForgetOldTimes(now: nat)
      modifies this`times
      ensures times == Recent(old(times), now)
    {
      while times != [] && now >= times[0] && now - times[0] >= PUBLISH_WINDOW_MS
        invariant Recent(times, now) == Recent(old(times), now)
      {
        times := times[1..];
      }
    }

    method AdmitPublication(required: set<PeerId>, value: seq<Byte>, now: nat) returns (r: Result<nat>)
      requires latest.Some? && latest.value in handles ==> Consistent(handles[latest.value])
      modifies this
      ensures (r, Contents()) == Admit(old(Contents()), required, value, now)
    {
      if |times| >= PUBLISH_LIMIT || nextId > MAX_PUBLICATION_ID { return Err(ResourceExhausted); }
      if latest.Some? && latest.value in handles && !handles[latest.value].Terminal() {
        var flying := if latest.value in inFlight then inFlight[latest.value] else {};
        SettleEach(latest.value, handles[latest.value].results.Keys - flying, Superseded);
        if flying == {} { inFlight := inFlight - {latest.value}; }
      }
      handles := handles[nextId := Accepted(required)];
      r := Ok(nextId);
      latest, bytes, nextId, times := Some(nextId), Some(value), nextId + 1, times + [now];
    }

    method OperationStarted(pub: nat, p: PeerId)
      requires Valid()
      modifies this`inFlight
      ensures Valid() && Contents() == Started(old(Contents()), pub, p)
    {
      StartedKeeps(Contents(), pub, p);
      if pub !in handles || handles[pub].Terminal() || p !in handles[pub].results { return; }
      inFlight := inFlight[pub := (if pub in inFlight then inFlight[pub] else {}) + {p}];
    }

    method OperationFinished(pub: nat, p: PeerId, result: PeerResult)
      requires Valid() && result != Pending
      modifies this`inFlight, this`handles
      ensures Valid() && Contents() == Finished(old(Contents()), pub, p, result)
    {
      FinishedKeeps(Contents(), pub, p, result);
      if pub in inFlight { inFlight := inFlight[pub := inFlight[pub] - {p}]; }
      if pub !in handles { return; }
      var (changed, h) := SetResult(handles[pub], Outcome(p, result));
      if !changed { return; }
      handles := handles[pub := h];
      if pub in inFlight && inFlight[pub] == {} { inFlight := inFlight - {pub}; }
    }

    method FailPendingPublications(r: PeerResult)
      requires Valid() && r != Pending && r != Acknowledged
      modifies this
      ensures Valid() && Contents() == FailAll(old(Contents()), r)
    {
      FailAllKeeps(Contents(), r);
      PartlyFailedAll(Contents(), r);
      FailEach(inFlight.Keys + (if latest.Some? then {latest.value} else {}), r);
      inFlight := map[];
    }

    method FailEach(pubs: set<nat>, r: PeerResult)
      requires forall pub :: pub in pubs ==> pub in handles && Consistent(handles[pub])
      requires r != Pending && r != Acknowledged
      modifies this`handles
      ensures handles == PartlyFailed(old(handles), r, pubs)
    {
      ghost var was := handles;
      var rest := pubs;
      while rest != {}
        invariant rest <= pubs
        invariant handles == PartlyFailed(was, r, pubs - rest)
        decreases |rest|
      {
        var pub :| pub in rest;
        PartlyFailedStep(was, r, pubs - rest, pub);
        assert pubs - rest + {pub} == pubs - (rest - {pub});
        SettleEach(pub, handles[pub].results.Keys, r);
        rest := rest - {pub};
      }
      assert pubs - {} == pubs;
    }

    method PeerLeft(p: PeerId)
      requires Valid()
      modifies this
      ensures Valid() && Contents() == PeerGone(old(Contents()), p)
    {
      PeerGoneKeeps(Contents(), p);
      PartlyGoneAll(Contents(), p);
      GoneEach(inFlight.Keys + (if latest.Some? then {latest.value} else {}), p);
    }

    method GoneEach(pubs: set<nat>, p: PeerId)
      requires pubs <= handles.Keys
      modifies this`handles, this`inFlight
      ensures handles == PartlyGone(old(handles), p, pubs)
      ensures inFlight == PartlyLanded(old(inFlight), p, pubs)
    {
      ghost var was, flights := handles, inFlight;
      var rest := pubs;
      while rest != {}
        invariant rest <= pubs
        invariant handles == PartlyGone(was, p, pubs - rest)
        invariant inFlight == PartlyLanded(flights, p, pubs - rest)
        decreases |rest|
      {
        var pub :| pub in rest;
        PartlyGoneStep(was, p, pubs - rest, pub);
        PartlyLandedStep(flights, p, pubs - rest, pub);
        assert pubs - rest + {pub} == pubs - (rest - {pub});
        handles := handles[pub := SetResult(handles[pub], Outcome(p, CH.PeerLeft)).1];
        if pub in inFlight {
          inFlight := if inFlight[pub] - {p} == {} then inFlight - {pub} else inFlight[pub := inFlight[pub] - {p}];
        }
        rest := rest - {pub};
      }
      assert pubs - {} == pubs;
    }
  }

  // The bulk operations part way through the open publications.

  function OpenPublications(g: Group): set<nat> { g.inFlight.Keys + (if g.latest.Some? then {g.latest.value} else {}) }

  ghost function PartlyFailed(handles: map<nat, Handle>, r: PeerResult, done: set<nat>): map<nat, Handle> {
    map pub | pub in handles :: if pub in done then Settled(handles[pub], handles[pub].results.Keys, r) else handles[pub]
  }

  lemma PartlyFailedStep(handles: map<nat, Handle>, r: PeerResult, done: set<nat>, pub: nat)
    requires pub in handles && pub !in done
    ensures PartlyFailed(handles, r, done)[pub] == handles[pub]
    ensures PartlyFailed(handles, r, done + {pub})
            == PartlyFailed(handles, r, done)[pub := Settled(handles[pub], handles[pub].results.Keys, r)]
  {
  }

  lemma PartlyFailedAll(g: Group, r: PeerResult)
    requires Inv(g)
    ensures PartlyFailed(g.handles, r, OpenPublications(g)) == FailAll(g, r).handles
    ensures forall pub :: pub in OpenPublications(g) ==> pub in g.handles && Consistent(g.handles[pub])
  {
  }

  ghost function PartlyGone(handles: map<nat, Handle>, p: PeerId, done: set<nat>): map<nat, Handle> {
    map pub | pub in handles :: if pub in done then SetResult(handles[pub], Outcome(p, CH.PeerLeft)).1 else handles[pub]
  }

  ghost function PartlyLanded(inFlight: map<nat, set<PeerId>>, p: PeerId, done: set<nat>): map<nat, set<PeerId>> {
    map pub | pub in inFlight && (pub !in done || inFlight[pub] - {p} != {})
      :: if pub in done then inFlight[pub] - {p} else inFlight[pub]
  }

  lemma PartlyGoneStep(handles: map<nat, Handle>, p: PeerId, done: set<nat>, pub: nat)
    requires pub in handles && pub !in done
    ensures PartlyGone(handles, p, done)[pub] == handles[pub]
    ensures PartlyGone(handles, p, done + {pub})
            == PartlyGone(handles, p, done)[pub := SetResult(handles[pub], Outcome(p, CH.PeerLeft)).1]
    ensures PartlyGone(handles, p, {}) == handles
  {
  }

  lemma PartlyLandedStep(inFlight: map<nat, set<PeerId>>, p: PeerId, done: set<nat>, pub: nat)
    requires pub !in done
    ensures var now := PartlyLanded(inFlight, p, done);
            PartlyLanded(inFlight, p, done + {pub})
            == (if pub !in now then now
                else if now[pub] - {p} == {} then now - {pub}
                else now[pub := now[pub] - {p}])
  {
  }

  lemma PartlyGoneAll(g: Group, p: PeerId)
    requires Inv(g)
    ensures PartlyGone(g.handles, p, OpenPublications(g)) == PeerGone(g, p).handles
    ensures PartlyLanded(g.inFlight, p, OpenPublications(g)) == PeerGone(g, p).inFlight
    ensures OpenPublications(g) <= g.handles.Keys
  {
  }
}
