/**
 The receiving end of checkpoint replication: reassembly, the set of completed
 MessageIds, application validation, commit and acknowledgement. Validation is awaited,
 so other chunks may arrive between a completion and its verdict.
 */
module CheckpointReceive {
  import opened Types
  import opened Chunks
  import opened Reassembly
  import RR = ReassemblyRuns
  import RG = ReassemblyGuarantees

  const COMPLETED_WINDOW: nat := 16384

  // A completed operation; its canonical encoding stands for its metadata and bytes.
  datatype Entry = Entry(id: nat, whole: Whole<CheckpointMeta>)

  // ---------- the set of completed MessageIds ----------

  function Lookup(entries: seq<Entry>, id: nat): (r: Option<Entry>)
    ensures r.None? <==> forall i :: 0 <= i < |entries| ==> entries[i].id != id
    ensures r.Some? ==> r.value in entries && r.value.id == id
  {
    if entries == [] then None
    else if entries[0].id == id then Some(entries[0])
    else Lookup(entries[1..], id)
  }

  function IsDuplicate(entries: seq<Entry>, e: Entry): Result<bool> {
    match Lookup(entries, e.id)
    case None => Ok(false)
    case Some(known) => if known == e then Ok(true) else Err(MessageIdCollision)
  }

  function Accept(entries: seq<Entry>, capacity: nat, e: Entry): (Result<bool>, seq<Entry>) {
    match IsDuplicate(entries, e)
    case Err(error) => (Err(error), entries)
    case Ok(true) => (Ok(false), entries)
    case Ok(false) =>
      var grown := entries + [e];
      (Ok(true), if |grown| > capacity then grown[1..] else grown)
  }

  // ---------- the receiver ----------

  // `waiting` holds completed checkpoints whose validation is awaited; `committed` and
  // `acknowledged` are the history of what was committed and what was acknowledged.
  datatype Receiver = Receiver(
    history: RR.History<CheckpointMeta>,
    completed: seq<Entry>,
    waiting: seq<Entry>,
    committed: seq<Entry>,
    acknowledged: seq<Entry>)

  const START := Receiver(RR.History(map[], 0, map[], [], []), [], [], [], [])

  datatype Event =
    | Arrives(id: nat, chunk: Chunk<CheckpointMeta>, now: int, term: nat)
    | Decided(verdict: bool, term: nat)          // the oldest awaited validation returns
    | GenerationChanges(cleared: bool)

  // The commit callback refuses a term older than the group's; recording the completion
  // can still fail, after the commit, when another content was recorded meanwhile.
  function Commit(s: Receiver, capacity: nat, e: Entry, term: nat): Receiver {
    if e.whole.meta.term < term then s
    else
      var (r, entries) := Accept(s.completed, capacity, e);
      s.(committed := s.committed + [e], completed := entries,
         acknowledged := if r.Ok? then s.acknowledged + [e] else s.acknowledged)
  }

  function Completed(s: Receiver, capacity: nat, e: Entry, term: nat): Receiver {
    match IsDuplicate(s.completed, e)
    case Err(_) => s
    case Ok(true) => s.(acknowledged := s.acknowledged + [e])
    case Ok(false) => if e.whole.meta.validate then s.(waiting := s.waiting + [e]) else Commit(s, capacity, e, term)
  }

  ghost function Step(capacity: nat, s: Receiver, e: Event): Receiver {
    match e
    case GenerationChanges(cleared) =>
      s.(history := RR.Step(CHECKPOINT, Unlimited, s.history, RR.GenerationChanges(cleared)))
    case Decided(verdict, term) =>
      if s.waiting == [] then s
      else
        var s1 := s.(waiting := s.waiting[1..]);
        if verdict then Commit(s1, capacity, s.waiting[0], term) else s1
    case Arrives(id, c, now, term) =>
      var s1 := s.(history := RR.Step(CHECKPOINT, Unlimited, s.history, RR.Arrives(id, c, now)));
      match Receive(CHECKPOINT, Unlimited, s.history.table, id, c, now).0
      case Ok(Some(whole)) => Completed(s1, capacity, Entry(id, whole), term)
      case _ => s1
  }

  ghost function Run(capacity: nat, events: seq<Event>): Receiver {
    if events == [] then START
    else Step(capacity, Run(capacity, events[..|events| - 1]), events[|events| - 1])
  }

  // ---------- what a completion and a verdict decide ----------

  ghost predicate OneEach(entries: seq<Entry>) { forall i, j :: 0 <= i < j < |entries| ==> entries[i].id != entries[j].id }

  // Committed with nothing else changed but the record and the acknowledgement.
  ghost predicate CommitsNew(s: Receiver, s': Receiver, e: Entry) {
    && s'.committed == s.committed + [e] && s'.acknowledged == s.acknowledged + [e] && e in s'.completed
    && s'.waiting == s.waiting && s'.history == s.history
  }

  // A completion that is already recorded is acknowledged again and not committed; another
  // content under its MessageId is dropped; a new one waits for its validation, or is
  // committed and acknowledged at once unless its term is older than the group's.
  lemma CompletionDecided(capacity: nat, s: Receiver, e: Entry, term: nat)
    requires 0 < capacity && OneEach(s.completed)
    ensures var s' := Completed(s, capacity, e, term);
            var known := exists x :: x in s.completed && x.id == e.id;
            && (e in s.completed ==> s' == s.(acknowledged := s.acknowledged + [e]))
            && (known && e !in s.completed ==> s' == s && IsDuplicate(s.completed, e) == Err(MessageIdCollision))
            && (!known && e.whole.meta.validate ==> s' == s.(waiting := s.waiting + [e]))
            && (!known && !e.whole.meta.validate && e.whole.meta.term < term ==> s' == s)
            && (!known && !e.whole.meta.validate && e.whole.meta.term >= term ==> CommitsNew(s, s', e))
  {
    NewIsRecorded(s.completed, capacity, e);
  }

  lemma NewIsRecorded(entries: seq<Entry>, capacity: nat, e: Entry)
    requires 0 < capacity
    ensures Accept(entries, capacity, e).0 == Ok(true) ==> e in Accept(entries, capacity, e).1
  {
    var grown := entries + [e];
    assert grown[|grown| - 1] == e && (|grown| > 1 ==> grown[1..][|grown| - 2] == e);
  }

  // A verdict ends the oldest wait; only a positive one commits, unless the group's term
  // has moved on; what is recorded under the same MessageId meanwhile is not looked at
  // before the commit, but decides the acknowledgement.
  lemma VerdictDecided(capacity: nat, s: Receiver, verdict: bool, term: nat)
    requires 0 < capacity && OneEach(s.completed) && s.waiting != []
    ensures var (s', e) := (Step(capacity, s, Decided(verdict, term)), s.waiting[0]);
            var left := s.(waiting := s.waiting[1..]);
            var other := exists x :: x in s.completed && x.id == e.id && x != e;
            && (!verdict || e.whole.meta.term < term ==> s' == left)
            && (verdict && e.whole.meta.term >= term ==>
                  && s'.committed == s.committed + [e] && s'.waiting == s.waiting[1..]
                  && s'.acknowledged == (if other then s.acknowledged else s.acknowledged + [e])
                  && (!other ==> e in s'.completed) && (other ==> s'.completed == s.completed))
  {
    var e := s.waiting[0];
    var found := Lookup(s.completed, e.id);
    assert found.Some? ==> forall x :: x in s.completed && x.id == e.id ==> x == found.value;
    NewIsRecorded(s.completed, capacity, e);
  }

  // ---------- acknowledged means committed ----------

  ghost predicate Sound(s: Receiver) {
    && (forall e :: e in s.completed ==> e in s.committed)
    && (forall e :: e in s.acknowledged ==> e in s.committed)
  }

  lemma CommitSound(capacity: nat, s: Receiver, e: Entry, term: nat)
    requires Sound(s)
    ensures Sound(Commit(s, capacity, e, term))
  {
    var after := Commit(s, capacity, e, term);
    forall x | x in s.committed + [e] && after != s ensures x in after.committed {}
    var entries := Accept(s.completed, capacity, e).1;
    forall x | x in entries ensures x in s.completed || x == e {}
  }

  lemma StepSound(capacity: nat, s: Receiver, e: Event)
    requires Sound(s)
    ensures Sound(Step(capacity, s, e))
  {
    match e {
      case GenerationChanges(_) =>
      case Decided(verdict, term) =>
        if s.waiting != [] { CommitSound(capacity, s.(waiting := s.waiting[1..]), s.waiting[0], term); }
      case Arrives(id, c, now, term) =>
        var s1 := s.(history := RR.Step(CHECKPOINT, Unlimited, s.history, RR.Arrives(id, c, now)));
        match Receive(CHECKPOINT, Unlimited, s.history.table, id, c, now).0 {
          case Ok(Some(whole)) => CommitSound(capacity, s1, Entry(id, whole), term);
          case _ =>
        }
    }
  }

  // In every run, overlapping validations included, an acknowledged MessageId has been
  // committed, with the very bytes and metadata that were acknowledged.
  lemma {:induction false} AcknowledgedMeansCommitted(capacity: nat, events: seq<Event>)
    ensures Sound(Run(capacity, events))
  {
    if events != [] {
      AcknowledgedMeansCommitted(capacity, events[..|events| - 1]);
      StepSound(capacity, Run(capacity, events[..|events| - 1]), events[|events| - 1]);
    }
  }

  // The chunks alone, as the reassembler sees them.
  function ChunkEvents(events: seq<Event>): seq<RR.Event<CheckpointMeta>> {
    if events == [] then []
    else
      ChunkEvents(events[..|events| - 1]) +
      match events[|events| - 1]
      case Arrives(id, c, now, _) => [RR.Arrives(id, c, now)]
      case GenerationChanges(cleared) => [RR.GenerationChanges(cleared)]
      case Decided(_, _) => []
  }

  ghost predicate FromDone(done: seq<RR.Completion<CheckpointMeta>>, e: Entry) {
    exists k :: 0 <= k < |done| && done[k].id == e.id && done[k].whole == e.whole
  }

  ghost predicate AllFromDone(s: Receiver) {
    && (forall e :: e in s.waiting ==> FromDone(s.history.done, e))
    && (forall e :: e in s.committed ==> FromDone(s.history.done, e))
  }

  lemma FromDoneStays(done: seq<RR.Completion<CheckpointMeta>>, more: seq<RR.Completion<CheckpointMeta>>, e: Entry)
    requires FromDone(done, e)
    ensures FromDone(done + more, e)
  {
    var k :| 0 <= k < |done| && done[k].id == e.id && done[k].whole == e.whole;
    assert (done + more)[k] == done[k];
  }

  lemma ArrivalFromDone(capacity: nat, s: Receiver, id: nat, c: Chunk<CheckpointMeta>, now: int, term: nat)
    requires AllFromDone(s)
    ensures AllFromDone(Step(capacity, s, Arrives(id, c, now, term)))
  {
    var after := Step(capacity, s, Arrives(id, c, now, term));
    var more := after.history.done[|s.history.done|..];
    assert s.history.done + more == after.history.done;
    forall e | FromDone(s.history.done, e) ensures FromDone(after.history.done, e) {
      FromDoneStays(s.history.done, more, e);
    }
    match Receive(CHECKPOINT, Unlimited, s.history.table, id, c, now).0 {
      case Ok(Some(whole)) => assert after.history.done[|s.history.done|].whole == whole;
      case _ =>
    }
  }

  lemma {:induction false} CommittedFromDone(capacity: nat, events: seq<Event>)
    ensures AllFromDone(Run(capacity, events))
  {
    if events != [] {
      var s, e := Run(capacity, events[..|events| - 1]), events[|events| - 1];
      CommittedFromDone(capacity, events[..|events| - 1]);
      match e {
        case Arrives(id, c, now, term) => ArrivalFromDone(capacity, s, id, c, now, term);
        case Decided(_, _) =>
        case GenerationChanges(_) =>
      }
    }
  }

  lemma {:induction false} HistoryOfChunks(capacity: nat, events: seq<Event>)
    ensures Run(capacity, events).history == RR.Run(CHECKPOINT, Unlimited, ChunkEvents(events))
  {
    if events != [] {
      var before, e := events[..|events| - 1], events[|events| - 1];
      HistoryOfChunks(capacity, before);
      if !e.Decided? {
        assert ChunkEvents(events)[..|ChunkEvents(events)| - 1] == ChunkEvents(before);
      } else {
        assert ChunkEvents(events) == ChunkEvents(before);
      }
      StepHistory(capacity, Run(capacity, before), e);
    }
  }

  lemma StepHistory(capacity: nat, s: Receiver, e: Event)
    ensures Step(capacity, s, e).history ==
            match e
            case Arrives(id, c, now, _) => RR.Step(CHECKPOINT, Unlimited, s.history, RR.Arrives(id, c, now))
            case GenerationChanges(cleared) => RR.Step(CHECKPOINT, Unlimited, s.history, RR.GenerationChanges(cleared))
            case Decided(_, _) => s.history
  {
  }

  ghost predicate HonestChunks(content: map<nat, Whole<CheckpointMeta>>, events: seq<Event>) {
    forall j :: 0 <= j < |events| && events[j].Arrives? ==> RG.Honest(CHECKPOINT, content, events[j].id, events[j].chunk)
  }

  lemma {:induction false} HonestPasses(content: map<nat, Whole<CheckpointMeta>>, events: seq<Event>)
    requires HonestChunks(content, events)
    ensures RG.HonestEvents(CHECKPOINT, content, ChunkEvents(events))
  {
    if events != [] {
      HonestPasses(content, events[..|events| - 1]);
      assert events[|events| - 1].Arrives? ==>
          RG.Honest(CHECKPOINT, content, events[|events| - 1].id, events[|events| - 1].chunk);
    }
  }

  // An acknowledgement tells the coordinator that exactly the checkpoint it sent under
  // that MessageId is committed, whatever was lost, repeated or reordered on the way.
  lemma AcknowledgedIsSenders(capacity: nat, content: map<nat, Whole<CheckpointMeta>>, events: seq<Event>, e: Entry)
    requires HonestChunks(content, events) && e in Run(capacity, events).acknowledged
    ensures e in Run(capacity, events).committed && e.id in content && e.whole == content[e.id]
  {
    AcknowledgedMeansCommitted(capacity, events);
    CommittedFromDone(capacity, events);
    HistoryOfChunks(capacity, events);
    HonestPasses(content, events);
    var h := RR.Run(CHECKPOINT, Unlimited, ChunkEvents(events));
    var k :| 0 <= k < |h.done| && h.done[k].id == e.id && h.done[k].whole == e.whole;
    RG.CompletedIsSenders(CHECKPOINT, Unlimited, content, ChunkEvents(events), k);
  }

  // ---------- committed once ----------

  function Window(log: seq<Entry>, capacity: nat): seq<Entry> {
    if |log| <= capacity then log else log[|log| - capacity..]
  }

  // Two commits of one MessageId are more than a whole window of commits apart.
  ghost predicate Spaced(log: seq<Entry>, capacity: nat) {
    forall i, j :: 0 <= i < j < |log| && log[i].id == log[j].id ==> j - i > capacity
  }

  ghost predicate Once(s: Receiver, capacity: nat) {
    Spaced(s.committed, capacity) && s.completed == Window(s.committed, capacity)
  }

  lemma LookupSeesTheWindow(log: seq<Entry>, capacity: nat, id: nat)
    ensures Lookup(Window(log, capacity), id).None?
            <==> forall i :: Max(0, |log| - capacity) <= i < |log| ==> log[i].id != id
  {
    var window := Window(log, capacity);
    var skipped := |log| - |window|;
    forall k | 0 <= k < |window| ensures window[k] == log[k + skipped] {}
    forall i | skipped <= i < |log| ensures log[i] == window[i - skipped] {}
  }

  lemma NewCommitKeepsOnce(capacity: nat, s: Receiver, e: Entry, term: nat)
    requires 0 < capacity && Once(s, capacity) && e.whole.meta.term >= term && Lookup(s.completed, e.id).None?
    ensures Once(Commit(s, capacity, e, term), capacity)
  {
    LookupSeesTheWindow(s.committed, capacity, e.id);
    AppendedWindow(s.committed, capacity, e);
    AppendedSpaced(s.committed, capacity, e);
  }

  lemma AppendedWindow(log: seq<Entry>, capacity: nat, e: Entry)
    requires 0 < capacity
    ensures var grown := Window(log, capacity) + [e];
            Window(log + [e], capacity) == if |grown| > capacity then grown[1..] else grown
  {
    if |log| >= capacity {
      assert (log + [e])[|log| + 1 - capacity..] == (Window(log, capacity) + [e])[1..];
    }
  }

  lemma AppendedSpaced(log: seq<Entry>, capacity: nat, e: Entry)
    requires Spaced(log, capacity)
    requires forall i :: Max(0, |log| - capacity) <= i < |log| ==> log[i].id != e.id
    ensures Spaced(log + [e], capacity)
  {
  }

  lemma RepeatedCommitBreaksOnce(capacity: nat, s: Receiver, e: Entry, term: nat)
    requires 0 < capacity && Once(s, capacity) && e.whole.meta.term >= term && Lookup(s.completed, e.id).Some?
    ensures !Spaced(Commit(s, capacity, e, term).committed, capacity)
  {
    LookupSeesTheWindow(s.committed, capacity, e.id);
    var log := Commit(s, capacity, e, term).committed;
    var i :| Max(0, |s.committed| - capacity) <= i < |s.committed| && s.committed[i].id == e.id;
    assert log[i].id == log[|s.committed|].id;
  }

  // A commit keeps the once-only property exactly when the MessageId is not among the
  // recorded completions at that moment. A commit that follows an awaited validation
  // does not look again.
  lemma CommitsOnceIff(capacity: nat, s: Receiver, e: Entry, term: nat)
    requires 0 < capacity && Once(s, capacity) && e.whole.meta.term >= term
    ensures Once(Commit(s, capacity, e, term), capacity) <==> Lookup(s.completed, e.id).None?
  {
    if Lookup(s.completed, e.id).None? {
      NewCommitKeepsOnce(capacity, s, e, term);
    } else {
      RepeatedCommitBreaksOnce(capacity, s, e, term);
    }
  }

  // Calls do not overlap: no chunk arrives while a validation is awaited.
  ghost predicate Serialized(capacity: nat, events: seq<Event>) {
    forall n :: 0 <= n < |events| && events[n].Arrives? ==> Run(capacity, events[..n]).waiting == []
  }

  ghost predicate SerialInv(s: Receiver, capacity: nat) {
    && Once(s, capacity)
    && |s.waiting| <= 1
    && forall e :: e in s.waiting ==> Lookup(s.completed, e.id).None?
  }

  lemma SerialStep(capacity: nat, s: Receiver, e: Event)
    requires 0 < capacity && SerialInv(s, capacity) && (e.Arrives? ==> s.waiting == [])
    ensures SerialInv(Step(capacity, s, e), capacity)
  {
    match e {
      case GenerationChanges(_) =>
      case Decided(verdict, term) =>
        if s.waiting != [] && s.waiting[0].whole.meta.term >= term {
          CommitsOnceIff(capacity, s.(waiting := s.waiting[1..]), s.waiting[0], term);
        }
      case Arrives(id, c, now, term) =>
        match Receive(CHECKPOINT, Unlimited, s.history.table, id, c, now).0 {
          case Ok(Some(whole)) =>
            var s1 := s.(history := RR.Step(CHECKPOINT, Unlimited, s.history, RR.Arrives(id, c, now)));
            if whole.meta.term >= term { CommitsOnceIff(capacity, s1, Entry(id, whole), term); }
          case _ =>
        }
    }
  }

  lemma {:induction false} SerialHolds(capacity: nat, events: seq<Event>)
    requires 0 < capacity && Serialized(capacity, events)
    ensures SerialInv(Run(capacity, events), capacity)
  {
    if events != [] {
      var before := events[..|events| - 1];
      forall n | 0 <= n < |before| && before[n].Arrives? ensures Run(capacity, before[..n]).waiting == [] {
        assert before[..n] == events[..n];
      }
      SerialHolds(capacity, before);
      SerialStep(capacity, Run(capacity, before), events[|events| - 1]);
    }
  }

  // When calls do not overlap, a checkpoint is committed again only after more than
  // 16,384 other commits.
  lemma CommittedOnce(events: seq<Event>, i: nat, j: nat)
    requires Serialized(COMPLETED_WINDOW, events) && i < j < |Run(COMPLETED_WINDOW, events).committed|
    requires Run(COMPLETED_WINDOW, events).committed[i].id == Run(COMPLETED_WINDOW, events).committed[j].id
    ensures j - i > COMPLETED_WINDOW
  {
    SerialHolds(COMPLETED_WINDOW, events);
  }

  // ---------- overlapping calls ----------

  // A one-chunk checkpoint that asks for validation, under MessageId 7.
  const ASKED := Entry(7, Whole(CheckpointMeta(1, 1, true), [42]))

  function AskedChunk(): Chunk<CheckpointMeta> { ChunkAt(CHECKPOINT, ASKED.whole.meta, ASKED.whole.bytes, 0) }

  lemma OneChunkCompletes(h: RR.History<CheckpointMeta>)
    requires h.table == map[]
    ensures Receive(CHECKPOINT, Unlimited, h.table, 7, AskedChunk(), 0) == (Ok(Some(ASKED.whole)), map[])
  {
    var c := AskedChunk();
    ChunkAtAccepted(CHECKPOINT, ASKED.whole.meta, ASKED.whole.bytes, 0);
    assert Live(h.table, 0) == map[];
    var grown := WithPiece(Fresh(c, 0), c, 0);
    assert grown.pieces == [Some(c.bytes)];
    assert Values(grown.pieces) == Pieces(CHECKPOINT, ASKED.whole.bytes, 1);
    PiecesTile(CHECKPOINT, ASKED.whole.bytes);
  }

  // The sender times out and repeats the checkpoint while its first validation is
  // awaited; both verdicts then commit.
  function Overlapping(): seq<Event> {
    [Arrives(7, AskedChunk(), 0, 1), Arrives(7, AskedChunk(), 0, 1), Decided(true, 1), Decided(true, 1)]
  }

  lemma OverlapWaits(capacity: nat)
    requires 0 < capacity
    ensures var s := Run(capacity, Overlapping()[..2]);
            s.waiting == [ASKED, ASKED] && s.completed == [] && s.committed == [] && s.acknowledged == []
  {
    var events := Overlapping();
    assert events[..2][..1][..0] == [];
    OneChunkCompletes(START.history);
    var s1 := Step(capacity, START, events[0]);
    assert Run(capacity, events[..2][..1]) == s1;
    assert s1.history.table == map[];
    OneChunkCompletes(s1.history);
  }

  // Without the owner's serialization the same checkpoint is committed twice in a row.
  lemma OverlapCommitsTwice(capacity: nat)
    requires 0 < capacity
    ensures Run(capacity, Overlapping()).committed == [ASKED, ASKED]
    ensures !Serialized(capacity, Overlapping())
  {
    var events := Overlapping();
    assert events[..4] == events && events[..4][..3] == events[..3] && events[..3][..2] == events[..2];
    OverlapWaits(capacity);
    var s2 := Run(capacity, events[..2]);
    var s3 := Step(capacity, s2, events[2]);
    assert Run(capacity, events[..3]) == s3;
    assert s3.committed == [ASKED] && s3.waiting == [ASKED] && s3.completed == [ASKED];
    assert Run(capacity, events) == Step(capacity, s3, events[3]);
    FirstArrivalWaits(capacity);
  }

  lemma FirstArrivalWaits(capacity: nat)
    ensures Run(capacity, Overlapping()[..1]).waiting == [ASKED]
  {
    assert Overlapping()[..1][..0] == [];
    OneChunkCompletes(START.history);
  }
}
