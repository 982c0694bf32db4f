/**
 GattBackendConnection: the bounded write queue of one GATT link. A frame is cut when it
 is queued; its fragments are submitted one at a time, and another frame is only chosen
 between frames. Submitting suspends, so choosing a fragment and learning its fate are
 two steps between which other calls can happen.
 */
module GattBackend {
  import opened Types
  import opened GattFragment

  const MAX_QUEUED_BYTES: nat := 262144

  datatype Fate = Waiting | SubmittedToPlatform | FailedToSubmit

  datatype Submission = Submitted | TemporarilyUnavailable | TerminalFailure

  datatype Write = Write(id: nat, frame: seq<Byte>, fragments: seq<seq<Byte>>, byteCount: nat, priority: SendPriority, next: nat)

  datatype Backend = Backend(
    open: bool,
    writes: seq<Write>,
    queued: int,
    awaiting: Option<nat>,       // the write whose fragment was handed to the platform
    fates: map<nat, Fate>,
    nextId: nat)

  const EMPTY := Backend(true, [], 0, None, map[], 0)

  // ---------- the specification ----------

  predicate Encodable(frame: seq<Byte>, size: nat) {
    0 < size <= MAX_PAYLOAD && frame != [] && |frame| < 0x1_0000_0000
  }

  function EncodeAll(fs: seq<Fragment>): (bs: seq<seq<Byte>>)
    requires forall i :: 0 <= i < |fs| ==> fs[i].Valid()
    ensures |bs| == |fs| && forall i :: 0 <= i < |fs| ==> bs[i] == Encode(fs[i])
  {
    seq(|fs|, i requires 0 <= i < |fs| => Encode(fs[i]))
  }

  lemma SplitValid(frame: seq<Byte>, size: nat)
    requires Encodable(frame, size)
    ensures forall i :: 0 <= i < |Split(frame, size)| ==> Split(frame, size)[i].Valid()
  {
    PiecesTile(frame, size, 0);
    PiecesFew(frame, size, 0);
  }

  lemma {:induction false} PiecesFew(rest: seq<Byte>, size: nat, k: nat)
    requires size > 0 && rest != []
    ensures |Pieces(rest, size, k)| <= |rest|
  {
    if |rest| > size { PiecesFew(rest[size..], size, k + 1); }
  }

  function EncodedFrame(frame: seq<Byte>, size: nat): (bs: seq<seq<Byte>>)
    requires Encodable(frame, size)
    ensures |bs| == |Split(frame, size)| > 0
  {
    SplitValid(frame, size);
    EncodeAll(Split(frame, size))
  }

  function TotalBytes(bs: seq<seq<Byte>>): nat { if bs == [] then 0 else TotalBytes(bs[..|bs| - 1]) + |bs[|bs| - 1]| }

  function Queue(b: Backend, size: nat, limit: nat, frame: seq<Byte>, priority: SendPriority): (Result<nat>, Backend) {
    if !b.open then (Err(TransportClosed), b)
    else if !Encodable(frame, size) then (Err(InvalidArgument), b)
    else
      var fragments := EncodedFrame(frame, size);
      var byteCount := TotalBytes(fragments);
      if b.queued + byteCount > limit then (Err(SendQueueFull), b)
      else (Ok(b.nextId),
            b.(writes := b.writes + [Write(b.nextId, frame, fragments, byteCount, priority, 0)],
               queued := b.queued + byteCount, fates := b.fates[b.nextId := Waiting], nextId := b.nextId + 1))
  }

  function Rank(p: SendPriority): nat {
    match p
    case Interactive => 0
    case Normal => 1
    case Bulk => 2
  }

  // The first frame of the highest priority, unless the first frame is under way.
  function Best(writes: seq<Write>): (i: nat)
    requires writes != []
    ensures i < |writes|
  {
    if |writes| == 1 then 0
    else
      var j := Best(writes[..|writes| - 1]);
      if Rank(writes[|writes| - 1].priority) < Rank(writes[j].priority) then |writes| - 1 else j
  }

  function Chosen(writes: seq<Write>): (i: nat)
    requires writes != []
    ensures i < |writes|
  {
    if writes[0].next != 0 then 0 else Best(writes)
  }

  function Others(writes: seq<Write>, i: nat): seq<Write>
    requires i < |writes|
  {
    writes[..i] + writes[i + 1..]
  }

  function ToFront(writes: seq<Write>, i: nat): seq<Write>
    requires i < |writes|
  {
    [writes[i]] + Others(writes, i)
  }

  // Chooses the next fragment to hand to the platform.
  function Begin(b: Backend): (Option<seq<Byte>>, Backend)
  {
    if b.awaiting.Some? || !b.open || b.writes == [] then (None, b)
    else
      var writes := ToFront(b.writes, Chosen(b.writes));
      if writes[0].next < |writes[0].fragments|
      then (Some(writes[0].fragments[writes[0].next]), b.(writes := writes, awaiting := Some(writes[0].id)))
      else (None, b)
  }

  function LinkDown(b: Backend): Backend {
    if !b.open then b
    else b.(open := false, writes := [], queued := 0,
            fates := AllFailed(b.fates))
  }

  function Finish(b: Backend, result: Submission): Backend {
    if b.awaiting.None? then b
    else
      var idle := b.(awaiting := None);
      if !b.open || b.writes == [] || b.writes[0].id != b.awaiting.value || result == TemporarilyUnavailable then idle
      else if result == TerminalFailure then LinkDown(idle)
      else
        var w := b.writes[0];
        if w.next + 1 == |w.fragments|
        then idle.(writes := b.writes[1..], queued := b.queued - w.byteCount,
                   fates := b.fates[w.id := SubmittedToPlatform])
        else idle.(writes := [w.(next := w.next + 1)] + b.writes[1..])
  }

  // ---------- what the queue keeps ----------

  function QueuedBytes(writes: seq<Write>): nat {
    if writes == [] then 0 else writes[0].byteCount + QueuedBytes(writes[1..])
  }

  predicate WriteSound(w: Write, size: nat) {
    Encodable(w.frame, size) && w.fragments == EncodedFrame(w.frame, size) && w.byteCount == TotalBytes(w.fragments)
    && w.next < |w.fragments|
  }

  // Only the first frame can be under way.
  ghost predicate AllSound(writes: seq<Write>, size: nat) {
    forall i :: 0 <= i < |writes| ==> WriteSound(writes[i], size) && (i > 0 ==> writes[i].next == 0)
  }

  // Frames of one priority wait in the order they were accepted.
  ghost predicate Ordered(writes: seq<Write>) {
    forall i, j :: 0 <= i < j < |writes| ==>
      writes[i].id != writes[j].id && (writes[i].priority == writes[j].priority ==> writes[i].id < writes[j].id)
  }

  function Ids(writes: seq<Write>): set<nat> { set w | w in writes :: w.id }

  // Every accepted frame waits, was submitted, or failed; exactly the queued ones wait.
  ghost predicate FatesExact(b: Backend) {
    && (forall id: nat :: id in b.fates <==> id < b.nextId)
    && (forall id :: id in b.fates && b.fates[id] == Waiting <==> id in Ids(b.writes))
  }

  ghost predicate Inv(b: Backend, size: nat, limit: nat) {
    && b.queued == QueuedBytes(b.writes) && b.queued <= limit
    && AllSound(b.writes, size) && Ordered(b.writes) && FatesExact(b)
    && (b.awaiting.Some? && b.open ==> b.writes != [] && b.writes[0].id == b.awaiting.value)
    && (!b.open ==> b.writes == [])
  }

  lemma EmptyInv(size: nat, limit: nat)
    ensures Inv(EMPTY, size, limit)
  {
    assert Ids(EMPTY.writes) == {};
  }

  lemma {:induction false} QueuedConcat(xs: seq<Write>, ys: seq<Write>)
    ensures QueuedBytes(xs + ys) == QueuedBytes(xs) + QueuedBytes(ys)
  {
    if xs == [] {
      assert xs + ys == ys;
    } else {
      assert (xs + ys)[1..] == xs[1..] + ys;
      QueuedConcat(xs[1..], ys);
    }
  }

  lemma AppendedIds(writes: seq<Write>, w: Write)
    ensures Ids(writes + [w]) == Ids(writes) + {w.id}
  {
    assert w in writes + [w];
    assert forall v :: v in writes + [w] <==> v in writes || v == w;
  }

  lemma AppendedOrdered(writes: seq<Write>, w: Write)
    requires Ordered(writes) && forall v :: v in writes ==> v.id < w.id
    ensures Ordered(writes + [w])
  {
    forall i | 0 <= i < |writes| ensures writes[i].id < w.id { assert writes[i] in writes; }
  }

  lemma AppendedSound(writes: seq<Write>, w: Write, size: nat)
    requires AllSound(writes, size) && WriteSound(w, size) && w.next == 0
    ensures AllSound(writes + [w], size)
  {
  }

  lemma Appended(writes: seq<Write>, w: Write, size: nat)
    requires AllSound(writes, size) && Ordered(writes) && WriteSound(w, size) && w.next == 0
    requires forall v :: v in writes ==> v.id < w.id
    ensures AllSound(writes + [w], size) && Ordered(writes + [w])
    ensures Ids(writes + [w]) == Ids(writes) + {w.id} && QueuedBytes(writes + [w]) == QueuedBytes(writes) + w.byteCount
  {
    QueuedConcat(writes, [w]);
    assert QueuedBytes([w]) == w.byteCount + QueuedBytes([w][1..]);
    AppendedIds(writes, w);
    AppendedOrdered(writes, w);
    AppendedSound(writes, w, size);
  }

  lemma NewIsLast(b: Backend)
    requires FatesExact(b)
    ensures forall v :: v in b.writes ==> v.id < b.nextId
  {
    forall v | v in b.writes ensures v.id < b.nextId { assert v.id in Ids(b.writes); }
  }

  lemma QueueKeeps(b: Backend, size: nat, limit: nat, frame: seq<Byte>, priority: SendPriority)
    requires Inv(b, size, limit)
    ensures Inv(Queue(b, size, limit, frame, priority).1, size, limit)
  {
    var (r, b') := Queue(b, size, limit, frame, priority);
    if r.Ok? {
      NewIsLast(b);
      QueuedSound(frame, size, b.nextId, priority);
      Appended(b.writes, b'.writes[|b.writes|], size);
      FatesAppended(b, b');
    }
  }

  lemma QueuedSound(frame: seq<Byte>, size: nat, id: nat, priority: SendPriority)
    requires Encodable(frame, size)
    ensures var fragments := EncodedFrame(frame, size);
            WriteSound(Write(id, frame, fragments, TotalBytes(fragments), priority, 0), size)
  {
  }

  lemma FatesAppended(b: Backend, b': Backend)
    requires FatesExact(b) && b'.fates == b.fates[b.nextId := Waiting] && b'.nextId == b.nextId + 1
    requires Ids(b'.writes) == Ids(b.writes) + {b.nextId}
    ensures FatesExact(b')
  {
  }

  lemma BestIsFirstOfItsPriority(writes: seq<Write>)
    requires writes != []
    ensures forall i :: 0 <= i < |writes| ==>
              Rank(writes[Best(writes)].priority) <= Rank(writes[i].priority)
              && (i < Best(writes) ==> Rank(writes[Best(writes)].priority) < Rank(writes[i].priority))
  {
  }

  // A frame is only started when no waiting frame has a higher priority, and none of its
  // own priority was accepted earlier.
  lemma StartsHighestThenOldest(b: Backend, size: nat, limit: nat)
    requires Inv(b, size, limit) && Begin(b).0.Some?
    ensures var w := Begin(b).1.writes[0];
            w.next == 0 ==> forall v :: v in b.writes && v != w ==>
              Rank(w.priority) < Rank(v.priority) || (w.priority == v.priority && w.id < v.id)
  {
    BestIsFirstOfItsPriority(b.writes);
    var i := Chosen(b.writes);
    if b.writes[0].next == 0 {
      forall v | v in b.writes && v != b.writes[i]
        ensures Rank(b.writes[i].priority) < Rank(v.priority) || (b.writes[i].priority == v.priority && b.writes[i].id < v.id)
      {
        var j :| 0 <= j < |b.writes| && b.writes[j] == v;
        assert j != i;
      }
    }
  }

  // A frame is started only when no more urgent one waits, and none of its own priority
  // that was accepted earlier: interactive before normal before bulk.
  lemma StartsUrgentFirst(b: Backend, size: nat, limit: nat)
    requires Inv(b, size, limit) && Begin(b).0.Some? && Begin(b).1.writes[0].next == 0
    ensures var w := Begin(b).1.writes[0];
            && w in b.writes
            && (w.priority == Normal || w.priority == Bulk ==> forall v :: v in b.writes ==> v.priority != Interactive)
            && (w.priority == Bulk ==> forall v :: v in b.writes ==> v.priority == Bulk)
            && (forall v :: v in b.writes && v.priority == w.priority && v != w ==> w.id < v.id)
  {
    StartsHighestThenOldest(b, size, limit);
  }

  // ---------- what the queue decides ----------

  lemma EncodedLast(fs: seq<Fragment>, f: Fragment)
    requires f.Valid() && forall i :: 0 <= i < |fs| ==> fs[i].Valid()
    ensures TotalBytes(EncodeAll(fs + [f])) == TotalBytes(EncodeAll(fs)) + HEADER_BYTES + |f.bytes|
  {
    assert EncodeAll(fs + [f])[..|fs|] == EncodeAll(fs);
  }

  lemma {:induction false} PayloadLast(fs: seq<Fragment>, f: Fragment)
    ensures Payload(fs + [f]) == Payload(fs) + f.bytes
  {
    if fs == [] {
      assert [] + [f] == [f] && [f][1..] == [] && Payload([f]) == f.bytes + Payload([]);
    } else {
      assert (fs + [f])[1..] == fs[1..] + [f];
      PayloadLast(fs[1..], f);
    }
  }

  // Encoded, fragments take their payloads and a header each.
  lemma {:induction false} EncodedTotal(fs: seq<Fragment>)
    requires forall i :: 0 <= i < |fs| ==> fs[i].Valid()
    ensures TotalBytes(EncodeAll(fs)) == |Payload(fs)| + HEADER_BYTES * |fs|
  {
    if fs != [] {
      var front, last := fs[..|fs| - 1], fs[|fs| - 1];
      EncodedTotal(front);
      EncodedLast(front, last);
      PayloadLast(front, last);
      assert fs == front + [last];
    }
  }

  lemma {:induction false} PiecesValid(rest: seq<Byte>, size: nat, k: nat)
    requires 0 < size <= MAX_PAYLOAD && k + |rest| < 0x1_0000_0000
    ensures forall i :: 0 <= i < |Pieces(rest, size, k)| ==> Pieces(rest, size, k)[i].Valid()
  {
    if |rest| > size { PiecesValid(rest[size..], size, k + 1); }
  }

  // The octets a frame takes on the link: its own, and seven for each of its fragments.
  function LinkBytes(frame: seq<Byte>, size: nat): nat
    requires size > 0
  {
    |frame| + HEADER_BYTES * |Split(frame, size)|
  }

  // A frame is accepted exactly on an open link, when it is not empty and when it fits
  // under the limit with its headers; it then waits behind all others.
  lemma WriteDecided(b: Backend, size: nat, limit: nat, frame: seq<Byte>, priority: SendPriority)
    requires 0 < size <= MAX_PAYLOAD && |frame| < 0x1_0000_0000
    ensures var (r, b') := Queue(b, size, limit, frame, priority);
            var fits := b.queued + LinkBytes(frame, size) <= limit;
            && (r == Err(TransportClosed) <==> !b.open)
            && (r == Err(InvalidArgument) <==> b.open && frame == [])
            && (r == Err(SendQueueFull) <==> b.open && frame != [] && !fits)
            && (r == Ok(b.nextId) <==> b.open && frame != [] && fits)
            && (r.Err? ==> b' == b)
            && (r.Ok? ==>
                  && b'.queued == b.queued + LinkBytes(frame, size) && b'.nextId == b.nextId + 1
                  && b'.fates == b.fates[b.nextId := Waiting]
                  && |b'.writes| == |b.writes| + 1 && b'.writes[..|b.writes|] == b.writes
                  && (var w := b'.writes[|b.writes|]; w.id == b.nextId && w.frame == frame && w.priority == priority && w.next == 0))
  {
    PiecesValid(frame, size, 0);
    EncodedTotal(Split(frame, size));
    PiecesTile(frame, size, 0);
  }

  // What is handed to the platform is the next fragment of the frame under way, or the
  // first of the frame that is started; no frame is lost or added.
  lemma HandsOutNext(b: Backend, size: nat, limit: nat)
    requires Inv(b, size, limit) && b.open && b.awaiting.None? && b.writes != []
    ensures var (fragment, b') := Begin(b);
            var w := b'.writes[0];
            && fragment == Some(w.fragments[w.next]) && b'.awaiting == Some(w.id)
            && (b.writes[0].next > 0 ==> w == b.writes[0])
            && (forall v :: v in b'.writes <==> v in b.writes) && |b'.writes| == |b.writes|
  {
    BeginKeeps(b, size, limit);
    ToFrontMembers(b.writes, Chosen(b.writes));
  }

  lemma ToFrontMembers(writes: seq<Write>, i: nat)
    requires i < |writes|
    ensures |ToFront(writes, i)| == |writes| && forall w :: w in ToFront(writes, i) <==> w in writes
  {
    assert writes == writes[..i] + [writes[i]] + writes[i + 1..];
  }

  // What each answer of the platform means for the frame under way and for the others.
  lemma AnswerDecided(b: Backend, size: nat, limit: nat, result: Submission)
    requires Inv(b, size, limit) && b.open && b.awaiting.Some?
    ensures var (b', w) := (Finish(b, result), b.writes[0]);
            && b'.awaiting == None
            && (result == TemporarilyUnavailable ==> b' == b.(awaiting := None))
            && (result == TerminalFailure ==>
                  && !b'.open && b'.writes == [] && b'.queued == 0
                  && forall id :: id in b.fates ==>
                       id in b'.fates && b'.fates[id] == (if b.fates[id] == Waiting then FailedToSubmit else b.fates[id]))
            && (result == Submitted && w.next + 1 < |w.fragments| ==>
                  b' == b.(awaiting := None, writes := [w.(next := w.next + 1)] + b.writes[1..]))
            && (result == Submitted && w.next + 1 == |w.fragments| ==>
                  b' == b.(awaiting := None, writes := b.writes[1..], queued := b.queued - w.byteCount, fates := b.fates[w.id := SubmittedToPlatform]))
  {
    assert WriteSound(b.writes[0], size);
    if result == TerminalFailure { LinkDownKeeps(b.(awaiting := None), size, limit); }
  }

  lemma ConsBytes(w: Write, rest: seq<Write>)
    ensures QueuedBytes([w] + rest) == w.byteCount + QueuedBytes(rest)
  {
    assert ([w] + rest)[1..] == rest;
  }

  lemma {:induction false} OthersBytes(writes: seq<Write>, i: nat)
    requires i < |writes|
    ensures QueuedBytes(writes) == writes[i].byteCount + QueuedBytes(Others(writes, i))
  {
    if i == 0 {
      assert Others(writes, i) == writes[1..];
    } else {
      OthersBytes(writes[1..], i - 1);
      ConsBytes(writes[0], Others(writes[1..], i - 1));
      assert Others(writes, i) == [writes[0]] + Others(writes[1..], i - 1);
    }
  }

  lemma ToFrontBytes(writes: seq<Write>, i: nat)
    requires i < |writes|
    ensures QueuedBytes(ToFront(writes, i)) == QueuedBytes(writes)
  {
    OthersBytes(writes, i);
    ConsBytes(writes[i], Others(writes, i));
  }

  lemma ToFrontIds(writes: seq<Write>, i: nat)
    requires i < |writes|
    ensures Ids(ToFront(writes, i)) == Ids(writes)
  {
    ToFrontMembers(writes, i);
  }

  lemma ToFrontSound(writes: seq<Write>, size: nat)
    requires writes != [] && AllSound(writes, size)
    ensures AllSound(ToFront(writes, Chosen(writes)), size)
  {
    var i := Chosen(writes);
    var moved := ToFront(writes, i);
    forall k | 0 <= k < |moved| ensures WriteSound(moved[k], size) && (k > 0 ==> moved[k].next == 0) {
      assert moved[k] == if k == 0 then writes[i] else if k <= i then writes[k - 1] else writes[k];
    }
  }

  lemma ToFrontKeeps(writes: seq<Write>, size: nat)
    requires writes != [] && AllSound(writes, size) && Ordered(writes)
    ensures var moved := ToFront(writes, Chosen(writes));
            && AllSound(moved, size) && Ordered(moved) && Ids(moved) == Ids(writes)
            && QueuedBytes(moved) == QueuedBytes(writes) && |moved| == |writes|
  {
    BestIsFirstOfItsPriority(writes);
    ToFrontSound(writes, size);
    ToFrontIds(writes, Chosen(writes));
    ToFrontBytes(writes, Chosen(writes));
    ToFrontOrdered(writes, Chosen(writes));
  }

  lemma ToFrontOrdered(writes: seq<Write>, i: nat)
    requires Ordered(writes) && i < |writes|
    requires forall k :: 0 <= k < i ==> writes[k].priority != writes[i].priority
    ensures Ordered(ToFront(writes, i))
  {
    var moved := ToFront(writes, i);
    forall k | 0 <= k < |moved| ensures moved[k] == if k == 0 then writes[i] else if k <= i then writes[k - 1] else writes[k] {}
  }

  lemma BeginKeeps(b: Backend, size: nat, limit: nat)
    requires Inv(b, size, limit)
    ensures Inv(Begin(b).1, size, limit)
    ensures Begin(b).0.Some? <==> b.awaiting.None? && b.open && b.writes != []
  {
    if b.awaiting.None? && b.open && b.writes != [] {
      ToFrontKeeps(b.writes, size);
      assert WriteSound(ToFront(b.writes, Chosen(b.writes))[0], size);
    }
  }

  // A physical failure fails every waiting frame together.
  lemma LinkDownKeeps(b: Backend, size: nat, limit: nat)
    requires Inv(b, size, limit)
    ensures Inv(LinkDown(b), size, limit)
    ensures forall id :: id in b.fates ==>
              id in LinkDown(b).fates && LinkDown(b).fates[id] == (if id in Ids(b.writes) then FailedToSubmit else b.fates[id])
  {
    if b.open { assert Ids(LinkDown(b).writes) == {}; }
  }

  lemma FinishKeeps(b: Backend, size: nat, limit: nat, result: Submission)
    requires Inv(b, size, limit)
    ensures Inv(Finish(b, result), size, limit)
  {
    if b.awaiting.Some? && b.open && b.writes != [] && b.writes[0].id == b.awaiting.value {
      if result == TerminalFailure {
        LinkDownKeeps(b.(awaiting := None), size, limit);
      } else if result == Submitted {
        SubmittedKeeps(b, size, limit);
      }
    }
  }

  lemma TailMembers(writes: seq<Write>)
    requires writes != []
    ensures forall v :: v in writes <==> v == writes[0] || v in writes[1..]
  {
    assert writes == [writes[0]] + writes[1..];
  }

  lemma HeadDone(writes: seq<Write>)
    requires writes != [] && Ordered(writes)
    ensures Ordered(writes[1..]) && Ids(writes[1..]) == Ids(writes) - {writes[0].id}
  {
    var rest := writes[1..];
    TailMembers(writes);
    forall v | v in rest ensures v.id != writes[0].id {
      var j :| 0 <= j < |rest| && rest[j] == v;
      assert writes[j + 1] == v;
    }
  }

  lemma TailSound(writes: seq<Write>, size: nat)
    requires writes != [] && AllSound(writes, size)
    ensures AllSound(writes[1..], size)
  {
    forall i | 0 <= i < |writes[1..]| ensures WriteSound(writes[1..][i], size) && writes[1..][i].next == 0 {
      assert writes[1..][i] == writes[i + 1];
    }
  }

  lemma HeadAdvanced(writes: seq<Write>, size: nat)
    requires writes != [] && AllSound(writes, size) && Ordered(writes) && writes[0].next + 1 < |writes[0].fragments|
    ensures var next := [writes[0].(next := writes[0].next + 1)] + writes[1..];
            && AllSound(next, size) && Ordered(next) && Ids(next) == Ids(writes) && QueuedBytes(next) == QueuedBytes(writes)
  {
    var next := [writes[0].(next := writes[0].next + 1)] + writes[1..];
    assert writes == [writes[0]] + writes[1..] && next[1..] == writes[1..];
    assert forall v :: v in writes <==> v == writes[0] || v in writes[1..];
    assert forall v :: v in next <==> v == next[0] || v in writes[1..];
    assert next[0] in next && writes[0] in writes;
  }

  lemma SubmittedKeeps(b: Backend, size: nat, limit: nat)
    requires Inv(b, size, limit) && b.open && b.awaiting.Some?
    ensures Inv(Finish(b, Submitted), size, limit)
  {
    if b.writes[0].next + 1 == |b.writes[0].fragments| {
      LastSubmitted(b, size, limit);
    } else {
      NotLastSubmitted(b, size, limit);
    }
  }

  lemma LastSubmitted(b: Backend, size: nat, limit: nat)
    requires Inv(b, size, limit) && b.open && b.awaiting.Some? && b.writes[0].next + 1 == |b.writes[0].fragments|
    ensures Inv(Finish(b, Submitted), size, limit)
  {
    var b' := Finish(b, Submitted);
    assert b'.writes == b.writes[1..];
    HeadDone(b.writes);
    TailSound(b.writes, size);
    FatesDone(b, b');
  }

  lemma NotLastSubmitted(b: Backend, size: nat, limit: nat)
    requires Inv(b, size, limit) && b.open && b.awaiting.Some? && b.writes[0].next + 1 != |b.writes[0].fragments|
    ensures Inv(Finish(b, Submitted), size, limit)
  {
    assert WriteSound(b.writes[0], size);
    HeadAdvanced(b.writes, size);
    var b' := Finish(b, Submitted);
    assert b'.writes == [b.writes[0].(next := b.writes[0].next + 1)] + b.writes[1..];
    assert FatesExact(b');
  }

  lemma FatesDone(b: Backend, b': Backend)
    requires FatesExact(b) && b.writes != [] && b'.fates == b.fates[b.writes[0].id := SubmittedToPlatform] && b'.nextId == b.nextId
    requires Ids(b'.writes) == Ids(b.writes) - {b.writes[0].id}
    ensures FatesExact(b')
  {
    assert b.writes[0].id in Ids(b.writes);
  }

  // ---------- the connection ----------

  class GattBackendConnection {
    const size: nat
    const limit: nat
    var open: bool
    var writes: seq<Write>
    var queued: int
    var awaiting: Option<nat>
    var fates: map<nat, Fate>
    var nextId: nat

    ghost function Contents(): Backend
      reads this
    {
      Backend(open, writes, queued, awaiting, fates, nextId)
    }

    ghost predicate Valid()
      reads this
    {
      Inv(Contents(), size, limit)
    }

    constructor (size: nat, limit: nat)
      requires 0 < size <= MAX_PAYLOAD
      ensures Valid() && Contents() == EMPTY && this.size == size && this.limit == limit
    {
      this.size, this.limit := size, limit;
      open, writes, queued, awaiting, fates, nextId := true, [], 0, None, map[], 0;
      new;
      EmptyInv(size, limit);
    }

    method WriteWithPriority(frame: seq<Byte>, priority: SendPriority) returns (r: Result<nat>)
      requires Valid()
      modifies this
      ensures Valid()
      ensures (r, Contents()) == Queue(old(Contents()), size, limit, frame, priority)
    {
      QueueKeeps(Contents(), size, limit, frame, priority);
      r := Enqueue(frame, priority);
    }

    method Enqueue(frame: seq<Byte>, priority: SendPriority) returns (r: Result<nat>)
      modifies this
      ensures (r, Contents()) == Queue(old(Contents()), size, limit, frame, priority)
    {
      if !open { return Err(TransportClosed); }
      if !Encodable(frame, size) { return Err(InvalidArgument); }
      var encoded := EncodeFrame(frame);
      var byteCount := Sum(encoded);
      if queued + byteCount > limit { return Err(SendQueueFull); }
      writes := writes + [Write(nextId, frame, encoded, byteCount, priority, 0)];
      queued, fates, nextId := queued + byteCount, fates[nextId := Waiting], nextId + 1;
      r := Ok(nextId - 1);
    }

    method Sum(encoded: seq<seq<Byte>>) returns (byteCount: nat)
      ensures byteCount == TotalBytes(encoded)
    {
      byteCount := 0;
      for i := 0 to |encoded|
        invariant byteCount == TotalBytes(encoded[..i])
      {
        assert encoded[..i + 1][..i] == encoded[..i];
        byteCount := byteCount + |encoded[i]|;
      }
      assert encoded[..|encoded|] == encoded;
    }

    method EncodeFrame(frame: seq<Byte>) returns (encoded: seq<seq<Byte>>)
      requires Encodable(frame, size)
      ensures encoded == EncodedFrame(frame, size)
    {
      var fragments := SplitFrame(frame, size);
      SplitValid(frame, size);
      encoded := [];
      for i := 0 to |fragments.value|
        invariant encoded == EncodeAll(fragments.value)[..i]
      {
        encoded := encoded + [Encode(fragments.value[i])];
      }
    }

    // The highest priority in the queue; the first frame in the queue that has it.
    method SelectNext() returns (i: nat)
      requires writes != []
      ensures i == Chosen(writes)
    {
      if |writes| < 2 { return 0; }
      if writes[0].next != 0 { return 0; }
      i := 0;
      for j := 1 to |writes|
        invariant i < j && i == Best(writes[..j])
      {
        assert writes[..j + 1][..j] == writes[..j];
        if Rank(writes[j].priority) < Rank(writes[i].priority) { i := j; }
      }
      assert writes[..|writes|] == writes;
    }

    method BeginSubmission() returns (fragment: Option<seq<Byte>>)
      requires Valid()
      modifies this
      ensures Valid()
      ensures (fragment, Contents()) == Begin(old(Contents()))
    {
      BeginKeeps(Contents(), size, limit);
      if writes != [] { ChosenHasMore(writes, size); }
      fragment := TakeNext();
    }

    method TakeNext() returns (fragment: Option<seq<Byte>>)
      requires writes != [] ==> writes[Chosen(writes)].next < |writes[Chosen(writes)].fragments|
      modifies this`writes, this`awaiting
      ensures (fragment, Contents()) == Begin(old(Contents()))
    {
      if awaiting.Some? || !open || writes == [] { return None; }
      var i := SelectNext();
      writes := ToFront(writes, i);
      awaiting := Some(writes[0].id);
      fragment := Some(writes[0].fragments[writes[0].next]);
    }

    method FinishSubmission(result: Submission)
      requires Valid()
      modifies this
      ensures Valid()
      ensures Contents() == Finish(old(Contents()), result)
    {
      FinishKeeps(Contents(), size, limit, result);
      Conclude(result);
    }

    method Conclude(result: Submission)
      requires FatesExact(Contents())
      modifies this
      ensures Contents() == Finish(old(Contents()), result)
    {
      if awaiting.None? { return; }
      var id := awaiting.value;
      awaiting := None;
      if !open || writes == [] || writes[0].id != id || result == TemporarilyUnavailable { return; }
      if result == TerminalFailure {
        FailAll();
        return;
      }
      var w := writes[0];
      if w.next + 1 == |w.fragments| {
        writes := writes[1..];
        queued := queued - w.byteCount;
        fates := fates[w.id := SubmittedToPlatform];
      } else {
        writes := [w.(next := w.next + 1)] + writes[1..];
      }
    }

    method TerminalFailed()
      requires Valid()
      modifies this
      ensures Valid()
      ensures Contents() == LinkDown(old(Contents()))
    {
      LinkDownKeeps(Contents(), size, limit);
      FailAll();
    }

    // Every accepted pending write fails together.
    method FailAll()
      requires FatesExact(Contents())
      modifies this
      ensures Contents() == LinkDown(old(Contents()))
    {
      if !open { return; }
      open := false;
      FailWrites();
      queued := 0;
    }

    method FailWrites()
      requires FatesExact(Contents())
      modifies this`writes, this`fates
      ensures writes == []
      ensures fates == AllFailed(old(fates))
    {
      ghost var all, was := writes, fates;
      var i := 0;
      while writes != []
        invariant i <= |all| && writes == all[i..]
        invariant fates == PartlyFailed(was, Ids(all[..i]))
        decreases |writes|
      {
        IdsSnoc(all, i);
        assert all[i].id in Ids(all);
        fates := fates[writes[0].id := FailedToSubmit];
        writes := writes[1..];
        i := i + 1;
      }
      assert all[..i] == all;
      assert PartlyFailed(was, Ids(all)) == AllFailed(was);
    }
  }

  function AllFailed(fates: map<nat, Fate>): map<nat, Fate> {
    map id | id in fates :: if fates[id] == Waiting then FailedToSubmit else fates[id]
  }

  ghost function PartlyFailed(fates: map<nat, Fate>, done: set<nat>): map<nat, Fate> {
    map id | id in fates :: if id in done then FailedToSubmit else fates[id]
  }

  lemma IdsSnoc(writes: seq<Write>, i: nat)
    requires i < |writes|
    ensures Ids(writes[..i + 1]) == Ids(writes[..i]) + {writes[i].id}
  {
    assert writes[..i + 1] == writes[..i] + [writes[i]];
    assert writes[i] in writes[..i + 1];
  }

  lemma ChosenHasMore(writes: seq<Write>, size: nat)
    requires writes != [] && AllSound(writes, size)
    ensures writes[Chosen(writes)].next < |writes[Chosen(writes)].fragments|
  {
    assert WriteSound(writes[Chosen(writes)], size);
  }
}
