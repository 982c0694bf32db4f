/**
 CoordinatorCheckpointHandle: the durability barrier of one checkpoint publication over
 its fixed set of required peers.
 */
module CheckpointHandle {
  import opened Types

  datatype PeerResult =
    | Pending
    | Acknowledged
    | Superseded
    | AckTimeout
    | PeerLeft
    | SessionTerminated
    | AuthorityLost
    | GroupClosed

  datatype Status = Undecided | Durable | NotDurable

  // `completions` counts how often the completion has fired.
  datatype Handle = Handle(results: map<PeerId, PeerResult>, status: Status, completions: nat)
  {
    predicate Terminal() { completions > 0 }
    predicate Waits(p: PeerId) { p in results && results[p] == Pending }
  }

  datatype Outcome = Outcome(peer: PeerId, result: PeerResult)

  predicate Decided(results: map<PeerId, PeerResult>) { forall p :: p in results ==> results[p] != Pending }

  predicate AllAcknowledged(results: map<PeerId, PeerResult>) { forall p :: p in results ==> results[p] == Acknowledged }

  function Fresh(required: set<PeerId>): Handle {
    Handle(map p | p in required :: Pending, Undecided, 0)
  }

  // A new handle without required peers is durable at once.
  function Accepted(required: set<PeerId>): Handle {
    if required == {} then Handle(map[], Durable, 1) else Fresh(required)
  }

  function SetResult(h: Handle, o: Outcome): (bool, Handle) {
    if h.Terminal() || !h.Waits(o.peer) then (false, h)
    else
      var results := h.results[o.peer := o.result];
      if Decided(results)
      then (true, Handle(results, if AllAcknowledged(results) then Durable else NotDurable, h.completions + 1))
      else (true, h.(results := results))
  }

  class CoordinatorCheckpointHandle {
    const required: set<PeerId>
    var results: map<PeerId, PeerResult>
    var status: Status
    var completions: nat

    ghost function Contents(): Handle
      reads this
    {
      Handle(results, status, completions)
    }

    constructor (required: set<PeerId>)
      ensures this.required == required && Contents() == Fresh(required)
    {
      this.required := required;
      results := map p | p in required :: Pending;
      status := Undecided;
      completions := 0;
    }

    method SetPeerResult(o: Outcome) returns (changed: bool)
      modifies this
      ensures (changed, Contents()) == SetResult(old(Contents()), o)
    {
      if completions > 0 || o.peer !in results { return false; }
      if results[o.peer] != Pending { return false; }
      results := results[o.peer := o.result];
      TryComplete();
      changed := true;
    }

    method TryComplete()
      modifies this`status, this`completions
      ensures completions <= old(completions) + 1
      ensures old(completions) > 0 || !Decided(results) ==> Contents() == old(Contents())
      ensures old(completions) == 0 && Decided(results) ==>
                completions == 1 && (status == Durable <==> AllAcknowledged(results)) && status != Undecided
    {
      if completions > 0 || (exists p | p in results :: results[p] == Pending) { return; }
      status := if forall p | p in results :: results[p] == Acknowledged then Durable else NotDurable;
      completions := completions + 1;
    }

    method CompleteImmediately()
      modifies this`status, this`completions
      ensures Contents() == (if old(results) == map[] && old(completions) == 0
                             then Handle(map[], Durable, 1) else old(Contents()))
    {
      if results != map[] || completions > 0 { return; }
      status := Durable;
      completions := completions + 1;
    }
  }

  // ---------- any sequence of outcomes ----------

  function After(required: set<PeerId>, outcomes: seq<Outcome>): Handle {
    if outcomes == [] then Accepted(required)
    else SetResult(After(required, outcomes[..|outcomes| - 1]), outcomes[|outcomes| - 1]).1
  }

  // The first real outcome reported for a peer.
  function First(outcomes: seq<Outcome>, p: PeerId): PeerResult {
    if outcomes == [] then Pending
    else
      var before := First(outcomes[..|outcomes| - 1], p);
      if before == Pending && outcomes[|outcomes| - 1].peer == p then outcomes[|outcomes| - 1].result else before
  }

  ghost predicate Consistent(h: Handle) {
    && h.completions <= 1
    && (h.Terminal() <==> Decided(h.results))
    && (h.status == Undecided <==> !h.Terminal())
    && (h.status == Durable <==> AllAcknowledged(h.results))
  }

  // Each peer's result is the first outcome reported for it, whatever else arrives in
  // whatever order; the publication is durable iff every required peer's first outcome is
  // an acknowledgement; and the completion fires once, exactly when no peer waits.
  lemma {:induction false} FirstOutcomeDecides(required: set<PeerId>, outcomes: seq<Outcome>)
    ensures var h := After(required, outcomes);
            && h.results.Keys == required
            && (forall p :: p in required ==> h.results[p] == First(outcomes, p))
            && Consistent(h)
            && (h.status == Durable <==> forall p :: p in required ==> First(outcomes, p) == Acknowledged)
            && (h.completions == 1 <==> forall p :: p in required ==> First(outcomes, p) != Pending)
  {
    if outcomes == [] {
    } else {
      FirstOutcomeDecides(required, outcomes[..|outcomes| - 1]);
    }
  }

  // Once complete, a handle never changes.
  lemma TerminalIsFinal(h: Handle, o: Outcome)
    requires Consistent(h)
    ensures h.Terminal() ==> SetResult(h, o) == (false, h)
    ensures Consistent(SetResult(h, o).1) && SetResult(h, o).1.results.Keys == h.results.Keys
    ensures forall p :: p in h.results && h.results[p] != Pending ==> SetResult(h, o).1.results[p] == h.results[p]
  {
  }
}
