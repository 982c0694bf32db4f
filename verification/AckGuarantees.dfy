/**
 What retention guarantees over whole runs, and exactly when its timeouts keep the three
 seconds they promise.
 */
module AckGuarantees {
  import opened Types
  import opened AckRetention
  import opened AckRuns

  // At most two retransmissions of one retained operation, timer and RESUME together,
  // and never more retained operations than the capacity.
  lemma RetransmittedAtMostTwice(capacity: nat, events: seq<Event>, id: nat)
    ensures TrailOf(Run(capacity, events), id).retransmitted <= MAX_RETRANSMISSIONS
    ensures |Run(capacity, events).table| <= capacity
  {
    InvHolds(capacity, events);
  }

  // Every retention ends at most once, and the operation stays exactly until then.
  lemma EndsOnce(capacity: nat, events: seq<Event>, id: nat)
    ensures var h := Run(capacity, events);
            h.ended[id] <= h.retained[id] <= h.ended[id] + 1 && (id in h.table <==> h.retained[id] != h.ended[id])
  {
    InvHolds(capacity, events);
  }

  // ---------- identity and content ----------

  ghost predicate KeepsContent(h: History, after: History, id: nat) {
    id in h.table && id in after.table ==>
      after.table[id].content == h.table[id].content && h.table[id].retransmissions <= after.table[id].retransmissions
  }

  lemma SettleKeepsContent(h: History, k: nat, r: TimeoutResult, e: Entry, id: nat)
    requires k in h.table && e.content == h.table[k].content && h.table[k].retransmissions <= e.retransmissions
    ensures KeepsContent(h, SettleStep(h, k, r, Settled(h.table, k, r, e)), id)
  {
  }

  lemma TimerKeepsContent(h: History, k: nat, now: int, id: nat)
    ensures KeepsContent(h, TimerStep(h, k, now), id)
  {
    if k in h.table { SettleKeepsContent(h, k, Expire(h.table[k], now).0, Expire(h.table[k], now).1, id); }
  }

  lemma ResumeKeepsContent(h: History, k: nat, id: nat)
    ensures KeepsContent(h, ResumeOneStep(h, k), id)
    ensures KeepsContent(h, ResumeAllStep(h), id)
  {
    if k in h.table { SettleKeepsContent(h, k, Resume(h.table[k]).0, Resume(h.table[k]).1, id); }
  }

  lemma SimpleStepsKeepContent(capacity: nat, h: History, e: Event, id: nat)
    requires e.Retain? || e.Submitted? || e.Acknowledge? || e.Cancel? || e.TransportLost?
    ensures KeepsContent(h, Step(capacity, h, e), id)
  {
  }

  // While it stays retained an operation keeps its content; its count never goes back.
  lemma StepKeepsContent(capacity: nat, h: History, e: Event, id: nat)
    ensures KeepsContent(h, Step(capacity, h, e), id)
  {
    match e
    case Timer(k, now) => TimerKeepsContent(h, k, now, id);
    case ResumeAll => ResumeKeepsContent(h, id, id);
    case ResumeOne(k) => ResumeKeepsContent(h, k, id);
    case _ => SimpleStepsKeepContent(capacity, h, e, id);
  }

  ghost predicate NeverRetained(events: seq<Event>, id: nat) {
    forall j :: 0 <= j < |events| ==> !(events[j].Retain? && events[j].id == id)
  }

  ghost function RunFrom(capacity: nat, h: History, events: seq<Event>): History {
    if events == [] then h
    else Step(capacity, RunFrom(capacity, h, events[..|events| - 1]), events[|events| - 1])
  }

  // What the history says of one operation.
  ghost predicate SameFor(id: nat, a: History, b: History) {
    && (id in a.table <==> id in b.table)
    && TrailOf(a, id) == TrailOf(b, id)
    && a.retained[id] == b.retained[id] && a.ended[id] == b.ended[id]
    && (forall t :: t in b.timeouts && t.id == id ==> t in a.timeouts)
  }

  lemma SimpleStepsIgnoreGone(capacity: nat, h: History, e: Event, id: nat)
    requires id !in h.table && !(e.Retain? && e.id == id)
    requires e.Retain? || e.Submitted? || e.Acknowledge? || e.Cancel? || e.TransportLost?
    ensures SameFor(id, h, Step(capacity, h, e))
  {
  }

  lemma SettleIgnoresGone(h: History, k: nat, r: TimeoutResult, e: Entry, id: nat)
    requires id !in h.table && k in h.table
    ensures SameFor(id, h, SettleStep(h, k, r, Settled(h.table, k, r, e)))
  {
  }

  lemma TimerIgnoresGone(h: History, k: nat, now: int, id: nat)
    requires id !in h.table
    ensures SameFor(id, h, TimerStep(h, k, now))
  {
    if k in h.table { SettleIgnoresGone(h, k, Expire(h.table[k], now).0, Expire(h.table[k], now).1, id); }
  }

  lemma ResumeOneIgnoresGone(h: History, k: nat, id: nat)
    requires id !in h.table
    ensures SameFor(id, h, ResumeOneStep(h, k))
  {
    if k in h.table { SettleIgnoresGone(h, k, Resume(h.table[k]).0, Resume(h.table[k]).1, id); }
  }

  lemma ResumeAllIgnoresGone(h: History, id: nat)
    requires id !in h.table
    ensures SameFor(id, h, ResumeAllStep(h))
  {
    var spent: multiset<nat> := multiset(h.table.Keys - ResumedAll(h.table).Keys);
    assert spent[id] == 0;
  }

  lemma StepIgnoresGone(capacity: nat, h: History, e: Event, id: nat)
    requires id !in h.table && !(e.Retain? && e.id == id)
    ensures SameFor(id, h, Step(capacity, h, e))
  {
    match e
    case Timer(k, now) => TimerIgnoresGone(h, k, now, id);
    case ResumeAll => ResumeAllIgnoresGone(h, id);
    case ResumeOne(k) => ResumeOneIgnoresGone(h, k, id);
    case _ => SimpleStepsIgnoreGone(capacity, h, e, id);
  }

  // Once ended, nothing revives an operation: stale timers, late submissions, late
  // acknowledgements, cancels, RESUME and transport loss leave no trace of it.
  lemma {:induction false} EndedForGood(capacity: nat, h: History, events: seq<Event>, id: nat)
    requires id !in h.table && NeverRetained(events, id)
    ensures id !in RunFrom(capacity, h, events).table
    ensures SameFor(id, h, RunFrom(capacity, h, events))
  {
    if events != [] {
      EndedForGood(capacity, h, events[..|events| - 1], id);
      StepIgnoresGone(capacity, RunFrom(capacity, h, events[..|events| - 1]), events[|events| - 1], id);
    }
  }

  // ---------- what each event brings about ----------

  // The operation left the set, once, and no other changed.
  ghost predicate OnlyLeaves(h: History, h': History, id: nat) {
    h'.table == h.table - {id} && h'.ended == h.ended + multiset{id} && h'.retained == h.retained
  }

  // A new attempt of this operation and of no other: its content, one retransmission more,
  // no deadline.
  ghost predicate OnlyRetried(h: History, h': History, id: nat) {
    && id in h.table && h'.ended == h.ended
    && h'.table == h.table[id := Entry(h.table[id].content, PendingSubmission, h.table[id].retransmissions + 1, None)]
  }

  // An id is retained once, with its content and without a deadline, while there is room.
  lemma RetainDecided(capacity: nat, past: seq<Event>, id: nat, content: seq<Byte>)
    ensures var (h, h') := (Run(capacity, past), Step(capacity, Run(capacity, past), Retain(id, content)));
            var r := RetainIn(h.table, capacity, id, content).0;
            && (r == Err(MessageIdCollision) <==> id in h.table)
            && (r == Err(ResourceExhausted) <==> id !in h.table && |h.table| >= capacity)
            && (r.Err? ==> h' == h)
            && (r.Ok? ==> h'.table == h.table[id := Entry(content, PendingSubmission, 0, None)] && h'.retained == h.retained + multiset{id})
  {
  }

  // A reported submission starts three seconds for the attempt that is current; an
  // acknowledgement or a cancel ends the retention.
  lemma ReportDecided(capacity: nat, past: seq<Event>, id: nat, attempt: nat, handed: Option<int>, reported: int)
    requires id in Run(capacity, past).table
    ensures var h := Run(capacity, past);
            && Step(capacity, h, Submitted(id, attempt, handed, reported)).table
               == h.table[id := Entry(h.table[id].content, AwaitingAck, h.table[id].retransmissions, Some(reported + 3000))]
            && OnlyLeaves(h, Step(capacity, h, Acknowledge(id)), id) && OnlyLeaves(h, Step(capacity, h, AckRuns.Event.Cancel(id)), id)
  {
    InvHolds(capacity, past);
    assert EntryInv(Run(capacity, past).table[id], Run(capacity, past).trails[id]);
  }

  // A timer acts exactly when the deadline of the current attempt has passed: it sends the
  // whole operation again, or ends it after the second retransmission.
  lemma TimerDecided(capacity: nat, past: seq<Event>, id: nat, now: int)
    ensures var (h, h') := (Run(capacity, past), Step(capacity, Run(capacity, past), Timer(id, now)));
            var due := id in h.table && h.table[id].deadline.Some? && now >= h.table[id].deadline.value;
            var r := TimerIn(h.table, id, now).0;
            && (r == Ignored <==> !due) && (!due ==> h' == h)
            && (due && h.table[id].retransmissions < 2 ==> r == RetransmitWhole && OnlyRetried(h, h', id))
            && (due && h.table[id].retransmissions == 2 ==> r == TerminalTimeout && OnlyLeaves(h, h', id))
            && (due <==> id in Due(h.table, now))
  {
    InvHolds(capacity, past);
    var h := Run(capacity, past);
    if id in h.table {
      assert EntryInv(h.table[id], h.trails[id]);
      assert h.table[id := h.table[id]] == h.table;
    }
  }

  // An operation of a run: it waits for its submission or its ACK, with retries used up or not.
  predicate Live(e: Entry) { (e.state == PendingSubmission || e.state == AwaitingAck) && e.retransmissions <= 2 }

  function Again(e: Entry): Entry { Entry(e.content, PendingSubmission, e.retransmissions + 1, None) }

  lemma ResumeOf(e: Entry)
    requires Live(e)
    ensures Resume(e).0 == (if e.retransmissions < 2 then RetransmitWhole else TerminalTimeout)
    ensures e.retransmissions < 2 ==> Resume(e).1 == Again(e)
  {
  }

  lemma ResumedTable(table: map<nat, Entry>)
    requires forall id :: id in table ==> Live(table[id])
    ensures forall id :: id in ResumedAll(table) <==> id in table && table[id].retransmissions < 2
    ensures forall id :: id in ResumedAll(table) ==> ResumedAll(table)[id] == Again(table[id])
    ensures Ready(table) == ResumedAll(table).Keys
  {
    forall id | id in table
      ensures Resume(table[id]).0 == (if table[id].retransmissions < 2 then RetransmitWhole else TerminalTimeout)
      ensures table[id].retransmissions < 2 ==> Resume(table[id]).1 == Again(table[id])
    {
      ResumeOf(table[id]);
    }
  }

  lemma RunIsLive(capacity: nat, past: seq<Event>)
    ensures forall id :: id in Run(capacity, past).table ==> Live(Run(capacity, past).table[id])
  {
    InvHolds(capacity, past);
    var h := Run(capacity, past);
    forall id | id in h.table ensures Live(h.table[id]) { assert EntryInv(h.table[id], h.trails[id]); }
  }

  // RESUME sends every operation with a retry left again and ends the others, whatever
  // they waited for; asked for one operation, it does so for that one.
  lemma ResumeDecided(capacity: nat, past: seq<Event>)
    ensures var (h, h') := (Run(capacity, past), Step(capacity, Run(capacity, past), ResumeAll));
            && (forall id :: id in h'.table <==> id in h.table && h.table[id].retransmissions < 2)
            && (forall id :: id in h'.table ==> h'.table[id] == Again(h.table[id]))
            && Ready(h.table) == h'.table.Keys
            && h'.ended == h.ended + multiset(h.table.Keys - h'.table.Keys) && h'.retained == h.retained
  {
    RunIsLive(capacity, past);
    ResumedTable(Run(capacity, past).table);
  }

  lemma ResumedOne(table: map<nat, Entry>, id: nat)
    requires id in table && Live(table[id])
    ensures ResumeIn(table, id) == (if table[id].retransmissions < 2 then (RetransmitWhole, table[id := Again(table[id])])
                                    else (TerminalTimeout, table - {id}))
  {
    ResumeOf(table[id]);
  }

  lemma ResumeOneDecided(capacity: nat, past: seq<Event>, id: nat)
    ensures var (h, h') := (Run(capacity, past), Step(capacity, Run(capacity, past), ResumeOne(id)));
            && (id !in h.table ==> h' == h)
            && (id in h.table && h.table[id].retransmissions < 2 ==> OnlyRetried(h, h', id))
            && (id in h.table && h.table[id].retransmissions == 2 ==> OnlyLeaves(h, h', id))
  {
    RunIsLive(capacity, past);
    OneResumed(capacity, Run(capacity, past), id);
  }

  lemma OneResumed(capacity: nat, h: History, id: nat)
    requires id in h.table ==> Live(h.table[id])
    ensures var h' := Step(capacity, h, ResumeOne(id));
            && (id !in h.table ==> h' == h)
            && (id in h.table && h.table[id].retransmissions < 2 ==> OnlyRetried(h, h', id))
            && (id in h.table && h.table[id].retransmissions == 2 ==> OnlyLeaves(h, h', id))
  {
    if id in h.table { ResumedOne(h.table, id); }
  }

  // ---------- transport loss ----------

  // No deadline runs and no ACK is awaited.
  ghost predicate Stopped(h: History, id: nat) {
    id in h.table && h.table[id].deadline.None? && h.table[id].state != AwaitingAck
  }

  // Losing the transport stops every deadline and ends every wait, and changes nothing else
  // of what is retained.
  lemma LossStopsEverything(capacity: nat, events: seq<Event>)
    ensures var (h, h') := (Run(capacity, events), Run(capacity, events + [TransportLost]));
            && h'.table.Keys == h.table.Keys && h'.trails == h.trails && h'.ended == h.ended && h'.timeouts == h.timeouts
            && (forall id :: id in h'.table ==>
                  && Stopped(h', id) && h'.table[id].content == h.table[id].content
                  && h'.table[id].retransmissions == h.table[id].retransmissions)
  {
    assert (events + [TransportLost])[..|events|] == events;
    forall id | id in Run(capacity, events).table { PausedStops(Run(capacity, events).table, id); }
  }

  // Nothing is reported for the operation, it is not resent, acknowledged or cancelled.
  ghost predicate Untouched(events: seq<Event>, id: nat) {
    forall e :: e in events ==>
      && !e.ResumeAll? && ((e.Submitted? || e.Acknowledge? || e.Cancel? || e.ResumeOne? || e.Retain?) ==> e.id != id)
  }

  // What is retained of the operation is the same, and stopped.
  ghost predicate StillStopped(h: History, h': History, id: nat) {
    && id in h.table && Stopped(h', id) && h'.table[id].content == h.table[id].content
    && h'.table[id].retransmissions == h.table[id].retransmissions
  }

  lemma StoppedStays(capacity: nat, h: History, e: Event, id: nat)
    requires Stopped(h, id) && Untouched([e], id)
    ensures StillStopped(h, Step(capacity, h, e), id)
  {
    assert e in [e];
  }

  lemma StoppedIgnoresTimers(table: map<nat, Entry>, id: nat, now: int)
    requires id in table && table[id].deadline.None?
    ensures TimerIn(table, id, now) == (Ignored, table)
  {
    assert table[id := table[id]] == table;
  }

  lemma {:induction false} RunStaysStopped(capacity: nat, h: History, later: seq<Event>, id: nat)
    requires Stopped(h, id) && Untouched(later, id)
    ensures StillStopped(h, RunFrom(capacity, h, later), id)
  {
    if later != [] {
      var front, e := later[..|later| - 1], later[|later| - 1];
      assert forall x :: x in front ==> x in later;
      RunStaysStopped(capacity, h, front, id);
      StoppedStays(capacity, RunFrom(capacity, h, front), e, id);
    }
  }

  // After a transport loss every timer of an operation is ignored, at any time, until a
  // new submission is reported or a RESUME resends it; its count and content stay.
  lemma NoTimeoutWithoutTransport(capacity: nat, past: seq<Event>, later: seq<Event>, id: nat, now: int)
    requires id in Run(capacity, past).table && Untouched(later, id)
    ensures var h := RunFrom(capacity, Run(capacity, past + [TransportLost]), later);
            StillStopped(Run(capacity, past), h, id) && TimerIn(h.table, id, now) == (Ignored, h.table)
  {
    LossStopsEverything(capacity, past);
    RunStaysStopped(capacity, Run(capacity, past + [TransportLost]), later, id);
    StoppedIgnoresTimers(RunFrom(capacity, Run(capacity, past + [TransportLost]), later).table, id, now);
  }

  // ---------- the three seconds ----------

  // Each report is about the current attempt and not earlier than its hand-over.
  ghost predicate TruthfulEvents(capacity: nat, events: seq<Event>) {
    forall n :: 0 <= n < |events| ==> TruthfulAt(Run(capacity, events[..n]), events[n])
  }

  predicate TruthfulAt(h: History, e: Event) {
    e.Submitted? && e.id in h.table ==>
      Report(e.attempt, e.handed, h.table[e.id].retransmissions, e.reported).Truthful()
  }

  ghost predicate AllTruthful(h: History) {
    && (forall id :: id in h.trails ==> forall r :: r in h.trails[id].reports ==> r.Truthful())
    && (forall t :: t in h.timeouts && t.basis.Some? ==> t.basis.value.Truthful())
  }

  lemma TimerKeepsTruthful(h: History, id: nat, now: int)
    requires AllTruthful(h)
    ensures AllTruthful(TimerStep(h, id, now))
  {
    var after := TimerStep(h, id, now);
    forall t | t in after.timeouts && t.basis.Some? ensures t.basis.value.Truthful() {
      if t !in h.timeouts { assert t.basis == LastReport(TrailOf(h, id)); }
    }
  }

  lemma StepKeepsTruthful(capacity: nat, h: History, e: Event)
    requires AllTruthful(h) && TruthfulAt(h, e)
    ensures AllTruthful(Step(capacity, h, e))
  {
    if e.Timer? {
      TimerKeepsTruthful(h, e.id, e.now);
    } else {
      assert Step(capacity, h, e).timeouts == h.timeouts;
    }
  }

  lemma {:induction false} TruthfulHolds(capacity: nat, events: seq<Event>)
    requires TruthfulEvents(capacity, events)
    ensures AllTruthful(Run(capacity, events))
  {
    if events != [] {
      var before := events[..|events| - 1];
      forall n | 0 <= n < |before| ensures TruthfulAt(Run(capacity, before[..n]), before[n]) {
        assert before[..n] == events[..n];
      }
      TruthfulHolds(capacity, before);
      StepKeepsTruthful(capacity, Run(capacity, before), events[|events| - 1]);
    }
  }

  // With truthful reports no timeout comes before the last frame of the attempt it ends
  // was handed over at least 3,000 ms earlier; the third one is terminal, the others not.
  lemma TimeoutsAreLate(capacity: nat, events: seq<Event>, t: Timeout)
    requires TruthfulEvents(capacity, events) && t in Run(capacity, events).timeouts
    ensures t.basis.Some? && t.basis.value.attempt == t.attempt
    ensures t.basis.value.handed.Some? && t.basis.value.handed.value + 3000 <= t.now
    ensures t.attempt <= 2 && (t.terminal <==> t.attempt == 2)
  {
    InvHolds(capacity, events);
    TruthfulHolds(capacity, events);
    assert TimeoutInv(t);
  }

  ghost predicate EarliestHandOver(h: History, e: Event, now: int)
    requires e.Submitted? && e.id in h.table
  {
    e.attempt == h.table[e.id].retransmissions && e.handed.Some? && e.handed.value + ACK_TIMEOUT_MS <= now
  }

  // A report keeps that promise exactly when it is truthful: otherwise the timer can fire
  // for an attempt whose last frame was handed over later than that, or never.
  lemma TimerKeepsItsPromiseIff(capacity: nat, past: seq<Event>, e: Event)
    requires e.Submitted? && e.id in Run(capacity, past).table
    ensures var h := Run(capacity, past);
            TruthfulAt(h, e) <==>
            forall now: int :: TimerIn(Step(capacity, h, e).table, e.id, now).0 != Ignored ==> EarliestHandOver(h, e, now)
  {
    var h := Run(capacity, past);
    InvHolds(capacity, past);
    assert EntryInv(h.table[e.id], h.trails[e.id]);
    var table := Step(capacity, h, e).table;
    forall now: int ensures TimerIn(table, e.id, now).0 != Ignored <==> now >= e.reported + ACK_TIMEOUT_MS {
      FiresIff(h, e, now);
    }
    assert TimerIn(table, e.id, e.reported + ACK_TIMEOUT_MS).0 != Ignored;
  }

  lemma FiresIff(h: History, e: Event, now: int)
    requires e.Submitted? && e.id in h.table && e.id in h.trails && EntryInv(h.table[e.id], h.trails[e.id])
    ensures TimerIn(SubmittedStep(h, e.id, e.attempt, e.handed, e.reported).table, e.id, now).0 != Ignored
            <==> now >= e.reported + ACK_TIMEOUT_MS
  {
  }

  // ---------- two reports of the runtime that are not truthful ----------

  lemma Advance(events: seq<Event>, n: nat)
    requires n < |events|
    ensures Run(RETENTION_CAPACITY, events[..n + 1])
         == Step(RETENTION_CAPACITY, Run(RETENTION_CAPACITY, events[..n]), events[n])
  {
    assert events[..n + 1][..n] == events[..n];
  }

  function OneEntry(e: Entry, trail: Trail, timeouts: seq<Timeout>): History {
    History(map[1 := e], map[1 := trail], multiset{1}, multiset{}, timeouts)
  }

  lemma RetainOne(content: seq<Byte>)
    ensures RetainStep(START, RETENTION_CAPACITY, 1, content) == OneEntry(New(content), Trail(content, 0, []), [])
  {
    assert |START.table| == 0;
  }

  lemma SubmitOne(e: Entry, t: Trail, timeouts: seq<Timeout>, attempt: nat, handed: Option<int>, reported: int)
    ensures SubmittedStep(OneEntry(e, t, timeouts), 1, attempt, handed, reported)
         == OneEntry(Submit(e, reported), t.(reports := t.reports + [Report(attempt, handed, e.retransmissions, reported)]),
                     timeouts)
  {
  }

  lemma ExpireOne(e: Entry, t: Trail, timeouts: seq<Timeout>, now: int)
    requires Expire(e, now).0 == RetransmitWhole
    ensures TimerStep(OneEntry(e, t, timeouts), 1, now)
         == OneEntry(Expire(e, now).1, t.(retransmitted := t.retransmitted + 1),
                     timeouts + [Timeout(1, e.retransmissions, now, LastReport(t), false)])
  {
  }

  // The timeout poll reads the clock once; a retry whose submission takes two seconds is
  // reported with the poll's time and expires one second after its hand-over.
  function SlowRetry(content: seq<Byte>): seq<Event> {
    [Retain(1, content), Submitted(1, 0, Some(0), 0), Timer(1, 3000), Submitted(1, 1, Some(5000), 3000), Timer(1, 6000)]
  }

  const PROMPT := Report(0, Some(0), 0, 0)
  const LATE := Report(1, Some(5000), 1, 3000)

  lemma FirstTimeout(content: seq<Byte>)
    ensures Run(RETENTION_CAPACITY, SlowRetry(content)[..3])
         == OneEntry(Entry(content, PendingSubmission, 1, None), Trail(content, 1, [PROMPT]),
                     [Timeout(1, 0, 3000, Some(PROMPT), false)])
  {
    var events := SlowRetry(content);
    Advance(events, 0);
    RetainOne(content);
    Advance(events, 1);
    SubmitOne(New(content), Trail(content, 0, []), [], 0, Some(0), 0);
    assert Trail(content, 0, []).reports + [PROMPT] == [PROMPT];
    Advance(events, 2);
    ExpireOne(Entry(content, AwaitingAck, 0, Some(3000)), Trail(content, 0, [PROMPT]), [], 3000);
  }

  lemma SlowRetryExpiresEarly(content: seq<Byte>)
    ensures Run(RETENTION_CAPACITY, SlowRetry(content)).timeouts
         == [Timeout(1, 0, 3000, Some(PROMPT), false), Timeout(1, 1, 6000, Some(LATE), false)]
  {
    var events := SlowRetry(content);
    var first := [Timeout(1, 0, 3000, Some(PROMPT), false)];
    FirstTimeout(content);
    Advance(events, 3);
    SubmitOne(Entry(content, PendingSubmission, 1, None), Trail(content, 1, [PROMPT]), first, 1, Some(5000), 3000);
    Advance(events, 4);
    ExpireOne(Entry(content, AwaitingAck, 1, Some(6000)), Trail(content, 1, [PROMPT] + [LATE]), first, 6000);
    assert events[..5] == events;
  }

  // The hop replay after RESUME reports the submission whatever became of its frames; the
  // retry budget is then spent on an attempt that was never handed over.
  function FailedReplay(content: seq<Byte>): seq<Event> {
    [Retain(1, content), TransportLost, ResumeOne(1), Submitted(1, 1, None, 10), Timer(1, 3010)]
  }

  lemma ReplayStarts(content: seq<Byte>)
    ensures Run(RETENTION_CAPACITY, FailedReplay(content)[..3])
         == OneEntry(Entry(content, PendingSubmission, 1, None), Trail(content, 1, []), [])
  {
    var events := FailedReplay(content);
    Advance(events, 0);
    RetainOne(content);
    Advance(events, 1);
    var h1 := OneEntry(New(content), Trail(content, 0, []), []);
    assert PausedAll(h1.table) == h1.table;
    Advance(events, 2);
    assert ResumeOneStep(h1, 1).table == map[1 := Entry(content, PendingSubmission, 1, None)];
    assert ResumeOneStep(h1, 1).trails == map[1 := Trail(content, 1, [])];
  }

  lemma FailedReplayTimesOut(content: seq<Byte>)
    ensures Run(RETENTION_CAPACITY, FailedReplay(content)).timeouts == [Timeout(1, 1, 3010, Some(Report(1, None, 1, 10)), false)]
  {
    var events := FailedReplay(content);
    ReplayStarts(content);
    Advance(events, 3);
    SubmitOne(Entry(content, PendingSubmission, 1, None), Trail(content, 1, []), [], 1, None, 10);
    Advance(events, 4);
    ExpireOne(Entry(content, AwaitingAck, 1, Some(3010)), Trail(content, 1, [Report(1, None, 1, 10)]), [], 3010);
    assert events[..5] == events;
  }
}
