/**
 Runs of the retention set: retention, submissions, timers, acknowledgements, cancels,
 transport loss and RESUME in any order and for any number of operations.
 */
module AckRuns {
  import opened Types
  import opened AckRetention

  // A report that the last frame of an attempt was handed to the platform: the attempt it
  // is about, when that frame really was handed over (if ever), the attempt that the set
  // counted at that moment, and the time that was reported.
  datatype Report = Report(attempt: nat, handed: Option<int>, during: nat, reported: int)
  {
    // The report is about the current attempt and not earlier than the hand-over.
    predicate Truthful() { attempt == during && handed.Some? && handed.value <= reported }
  }

  datatype Event =
    | Retain(id: nat, content: seq<Byte>)
    | Submitted(id: nat, attempt: nat, handed: Option<int>, reported: int)
    | Acknowledge(id: nat)
    | Cancel(id: nat)
    | Timer(id: nat, now: int)
    | TransportLost
    | ResumeAll
    | ResumeOne(id: nat)

  // History of one retained operation, and of every timeout.
  datatype Trail = Trail(content: seq<Byte>, retransmitted: nat, reports: seq<Report>)
  datatype Timeout = Timeout(id: nat, attempt: nat, now: int, basis: Option<Report>, terminal: bool)

  datatype History = History(
    table: map<nat, Entry>,
    trails: map<nat, Trail>,
    retained: multiset<nat>,
    ended: multiset<nat>,
    timeouts: seq<Timeout>)

  const START := History(map[], map[], multiset{}, multiset{}, [])

  function TrailOf(h: History, id: nat): Trail { if id in h.trails then h.trails[id] else Trail([], 0, []) }

  function LastReport(t: Trail): Option<Report> { if t.reports == [] then None else Some(t.reports[|t.reports| - 1]) }

  function RetainStep(h: History, capacity: nat, id: nat, content: seq<Byte>): History {
    var (r, table) := RetainIn(h.table, capacity, id, content);
    if r.Err? then h
    else h.(table := table, trails := h.trails[id := Trail(content, 0, [])], retained := h.retained + multiset{id})
  }

  function SubmittedStep(h: History, id: nat, attempt: nat, handed: Option<int>, reported: int): History {
    if id !in h.table then h
    else
      var t := TrailOf(h, id);
      var report := Report(attempt, handed, h.table[id].retransmissions, reported);
      h.(table := h.table[id := Submit(h.table[id], reported)], trails := h.trails[id := t.(reports := t.reports + [report])])
  }

  function RemoveStep(h: History, id: nat): History {
    if id !in h.table then h else h.(table := h.table - {id}, ended := h.ended + multiset{id})
  }

  // A retransmission or an end, whoever caused it.
  function SettleStep(h: History, id: nat, r: TimeoutResult, table: map<nat, Entry>): History {
    match r
    case Ignored => h.(table := table)
    case TerminalTimeout => h.(table := table, ended := h.ended + multiset{id})
    case RetransmitWhole =>
      h.(table := table, trails := h.trails[id := TrailOf(h, id).(retransmitted := TrailOf(h, id).retransmitted + 1)])
  }

  function TimerStep(h: History, id: nat, now: int): History {
    var (r, table) := TimerIn(h.table, id, now);
    var h1 := SettleStep(h, id, r, table);
    if r == Ignored || id !in h.table then h1
    else
      h1.(timeouts := h.timeouts + [Timeout(id, h.table[id].retransmissions, now, LastReport(TrailOf(h, id)), r == TerminalTimeout)])
  }

  function ResumeAllStep(h: History): History {
    var spent := h.table.Keys - ResumedAll(h.table).Keys;
    History(ResumedAll(h.table),
            map id | id in h.trails ::
              if id in Ready(h.table) then h.trails[id].(retransmitted := h.trails[id].retransmitted + 1) else h.trails[id],
            h.retained, h.ended + multiset(spent), h.timeouts)
  }

  function ResumeOneStep(h: History, id: nat): History {
    var (r, table) := ResumeIn(h.table, id);
    SettleStep(h, id, r, table)
  }

  function Step(capacity: nat, h: History, e: Event): History {
    match e
    case Retain(id, content) => RetainStep(h, capacity, id, content)
    case Submitted(id, attempt, handed, reported) => SubmittedStep(h, id, attempt, handed, reported)
    case Acknowledge(id) => RemoveStep(h, id)
    case Cancel(id) => RemoveStep(h, id)
    case Timer(id, now) => TimerStep(h, id, now)
    case TransportLost => h.(table := PausedAll(h.table))
    case ResumeAll => ResumeAllStep(h)
    case ResumeOne(id) => ResumeOneStep(h, id)
  }

  function Run(capacity: nat, events: seq<Event>): History {
    if events == [] then START
    else Step(capacity, Run(capacity, events[..|events| - 1]), events[|events| - 1])
  }

  // ---------- the invariant ----------

  // A deadline runs exactly while an ACK is awaited, and it is three seconds after the
  // last report, which came during the attempt that is still current.
  predicate EntryInv(e: Entry, t: Trail) {
    && e.content == t.content
    && e.retransmissions == t.retransmitted <= MAX_RETRANSMISSIONS
    && (e.state == PendingSubmission || e.state == AwaitingAck)
    && (e.deadline.Some? <==> e.state == AwaitingAck)
    && (e.deadline.Some? ==>
          && LastReport(t).Some?
          && LastReport(t).value.during == e.retransmissions
          && e.deadline.value == LastReport(t).value.reported + ACK_TIMEOUT_MS)
  }

  predicate EntriesInv(h: History) {
    forall id :: id in h.table ==> id in h.trails && EntryInv(h.table[id], h.trails[id])
  }

  // Every retention has ended once, or is still there.
  ghost predicate Balanced(h: History) {
    forall id: nat :: h.retained[id] == h.ended[id] + (if id in h.table then 1 else 0)
  }

  predicate TimeoutInv(t: Timeout) {
    && t.basis.Some?
    && t.basis.value.during == t.attempt
    && t.basis.value.reported + ACK_TIMEOUT_MS <= t.now
    && t.attempt <= MAX_RETRANSMISSIONS
    && (t.terminal <==> t.attempt == MAX_RETRANSMISSIONS)
  }

  ghost predicate Inv(capacity: nat, h: History) {
    && EntriesInv(h)
    && (forall id :: id in h.trails ==> h.trails[id].retransmitted <= MAX_RETRANSMISSIONS)
    && Balanced(h)
    && |h.table| <= capacity
    && (forall t :: t in h.timeouts ==> TimeoutInv(t))
  }

  lemma RetainKeeps(capacity: nat, h: History, id: nat, content: seq<Byte>)
    requires Inv(capacity, h)
    ensures Inv(capacity, RetainStep(h, capacity, id, content))
  {
  }

  lemma SubmittedKeeps(capacity: nat, h: History, id: nat, attempt: nat, handed: Option<int>, reported: int)
    requires Inv(capacity, h)
    ensures Inv(capacity, SubmittedStep(h, id, attempt, handed, reported))
  {
    if id in h.table { assert h.table[id := Submit(h.table[id], reported)].Keys == h.table.Keys; }
  }

  lemma RemoveKeeps(capacity: nat, h: History, id: nat)
    requires Inv(capacity, h)
    ensures Inv(capacity, RemoveStep(h, id))
  {
    if id in h.table { assert (h.table - {id}).Keys == h.table.Keys - {id}; }
  }

  lemma SettleKeeps(capacity: nat, h: History, id: nat, r: TimeoutResult, e: Entry)
    requires Inv(capacity, h) && id in h.table
    requires r == Ignored ==> EntryInv(e, h.trails[id])
    requires r == RetransmitWhole ==> (r, e) == Retry(h.table[id])
    ensures Inv(capacity, SettleStep(h, id, r, Settled(h.table, id, r, e)))
  {
    if r == TerminalTimeout {
      assert (h.table - {id}).Keys == h.table.Keys - {id};
    } else {
      assert h.table[id := e].Keys == h.table.Keys;
    }
  }

  lemma TimerKeeps(capacity: nat, h: History, id: nat, now: int)
    requires Inv(capacity, h)
    ensures Inv(capacity, TimerStep(h, id, now))
  {
    if id in h.table {
      assert EntryInv(h.table[id], h.trails[id]);
      var (r, e) := Expire(h.table[id], now);
      SettleKeeps(capacity, h, id, r, e);
      if r != Ignored { TimeoutNoted(h, id, now); }
    }
  }

  lemma TimeoutNoted(h: History, id: nat, now: int)
    requires id in h.table && id in h.trails && EntryInv(h.table[id], h.trails[id])
    requires Expire(h.table[id], now).0 != Ignored
    ensures TimeoutInv(Timeout(id, h.table[id].retransmissions, now, LastReport(TrailOf(h, id)),
                               Expire(h.table[id], now).0 == TerminalTimeout))
  {
  }

  lemma ResumeOneKeeps(capacity: nat, h: History, id: nat)
    requires Inv(capacity, h)
    ensures Inv(capacity, ResumeOneStep(h, id))
  {
    if id in h.table {
      assert EntryInv(h.table[id], h.trails[id]);
      var (r, e) := Resume(h.table[id]);
      SettleKeeps(capacity, h, id, r, e);
    }
  }

  lemma FewerKeys(small: map<nat, Entry>, big: map<nat, Entry>)
    requires small.Keys <= big.Keys
    ensures |small| <= |big|
    decreases |big|
  {
    if id :| id in big && id !in small {
      FewerKeys(small, big - {id});
      assert (big - {id}).Keys == big.Keys - {id};
    } else {
      assert small.Keys == big.Keys;
      assert |small| == |small.Keys| && |big| == |big.Keys|;
    }
  }

  lemma TransportLostKeeps(capacity: nat, h: History)
    requires Inv(capacity, h)
    ensures Inv(capacity, h.(table := PausedAll(h.table)))
  {
    FewerKeys(PausedAll(h.table), h.table);
  }

  lemma ResumeAllBalanced(h: History)
    requires Balanced(h)
    ensures Balanced(ResumeAllStep(h))
  {
    var spent := h.table.Keys - ResumedAll(h.table).Keys;
    var endings: multiset<nat> := multiset(spent);
    forall id: nat ensures endings[id] == if id in spent then 1 else 0 {}
  }

  lemma ResumeAllEntries(h: History)
    requires EntriesInv(h)
    ensures EntriesInv(ResumeAllStep(h))
  {
    var after := ResumeAllStep(h);
    forall id | id in after.table ensures id in after.trails && EntryInv(after.table[id], after.trails[id]) {
      assert EntryInv(h.table[id], h.trails[id]);
    }
  }

  lemma ResumeAllKeeps(capacity: nat, h: History)
    requires Inv(capacity, h)
    ensures Inv(capacity, ResumeAllStep(h))
  {
    FewerKeys(ResumedAll(h.table), h.table);
    ResumeAllEntries(h);
    ResumeAllBalanced(h);
    var after := ResumeAllStep(h);
    forall id | id in h.trails ensures after.trails[id].retransmitted <= MAX_RETRANSMISSIONS {
      if id in Ready(h.table) { assert EntryInv(h.table[id], h.trails[id]); }
    }
  }

  lemma StepKeeps(capacity: nat, h: History, e: Event)
    requires Inv(capacity, h)
    ensures Inv(capacity, Step(capacity, h, e))
  {
    match e
    case Retain(id, content) => RetainKeeps(capacity, h, id, content);
    case Submitted(id, attempt, handed, reported) => SubmittedKeeps(capacity, h, id, attempt, handed, reported);
    case Acknowledge(id) => RemoveKeeps(capacity, h, id);
    case Cancel(id) => RemoveKeeps(capacity, h, id);
    case Timer(id, now) => TimerKeeps(capacity, h, id, now);
    case TransportLost => TransportLostKeeps(capacity, h);
    case ResumeAll => ResumeAllKeeps(capacity, h);
    case ResumeOne(id) => ResumeOneKeeps(capacity, h, id);
  }

  lemma {:induction false} InvHolds(capacity: nat, events: seq<Event>)
    ensures Inv(capacity, Run(capacity, events))
  {
    if events != [] {
      InvHolds(capacity, events[..|events| - 1]);
      StepKeeps(capacity, Run(capacity, events[..|events| - 1]), events[|events| - 1]);
    }
  }
}
