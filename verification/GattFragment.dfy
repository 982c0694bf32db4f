/**
 The GATT envelope: GattFragment (7-byte header plus payload), GattFragmenter, which cuts
 one frame into fragments, and GattReassembler, which puts one frame together again.
 */
module GattFragment {
  import opened Types

  const HEADER_BYTES: nat := 7
  const MAX_PAYLOAD: nat := 512

  // ---------- envelope ----------

  datatype Fragment = Fragment(sequence: nat, start: bool, end: bool, bytes: seq<Byte>)
  {
    predicate Valid() { sequence <= 0xffff_ffff && |bytes| <= 0xffff }
  }

  function U16(n: nat): seq<Byte>
    requires n < 0x1_0000
  {
    [n / 0x100, n % 0x100]
  }

  function U32(n: nat): seq<Byte>
    requires n < 0x1_0000_0000
  {
    U16(n / 0x1_0000) + U16(n % 0x1_0000)
  }

  function FromU16(b: seq<Byte>): nat
    requires |b| == 2
  {
    var high: int, low: int := b[0], b[1];
    high * 0x100 + low
  }

  function FromU32(b: seq<Byte>): nat
    requires |b| == 4
  {
    FromU16(b[..2]) * 0x1_0000 + FromU16(b[2..])
  }

  function Flags(f: Fragment): Byte { (if f.start then 1 else 0) + (if f.end then 2 else 0) }

  function Encode(f: Fragment): seq<Byte>
    requires f.Valid()
  {
    U32(f.sequence) + [Flags(f)] + U16(|f.bytes|) + f.bytes
  }

  function Decode(b: seq<Byte>): Result<Fragment> {
    if |b| < HEADER_BYTES then Err(ProtocolMismatch)
    else if b[4] > 3 || |b| != FromU16(b[5..7]) + HEADER_BYTES then Err(ProtocolMismatch)
    else Ok(Fragment(FromU32(b[..4]), b[4] % 2 == 1, b[4] / 2 == 1, b[7..]))
  }

  lemma U32RoundTrip(n: nat)
    requires n < 0x1_0000_0000
    ensures FromU32(U32(n)) == n
  {
    var b := U32(n);
    assert b[..2] == U16(n / 0x1_0000) && b[2..] == U16(n % 0x1_0000);
  }

  lemma U32Onto(b: seq<Byte>)
    requires |b| == 4
    ensures FromU32(b) < 0x1_0000_0000 && U32(FromU32(b)) == b
  {
    var high, low := FromU16(b[..2]), FromU16(b[2..]);
    assert FromU32(b) / 0x1_0000 == high && FromU32(b) % 0x1_0000 == low;
    assert U16(high) == b[..2] && U16(low) == b[2..];
    assert b == b[..2] + b[2..];
  }

  // Decoding undoes encoding, and nothing else decodes: the envelope is a bijection
  // between fragments and the accepted byte strings.
  lemma DecodeEncode(f: Fragment)
    requires f.Valid()
    ensures Decode(Encode(f)) == Ok(f)
  {
    var b := Encode(f);
    U32RoundTrip(f.sequence);
    assert b[..4] == U32(f.sequence);
    assert b[5..7] == U16(|f.bytes|);
    assert b[7..] == f.bytes;
  }

  lemma EncodeDecode(b: seq<Byte>)
    requires Decode(b).Ok?
    ensures Decode(b).value.Valid() && Encode(Decode(b).value) == b
  {
    var f := Decode(b).value;
    U32Onto(b[..4]);
    assert Flags(f) == b[4];
    assert U16(|f.bytes|) == b[5..7];
    assert b == b[..4] + [b[4]] + b[5..7] + b[7..];
  }

  // Everything else is refused as a protocol error.
  lemma RefusedIff(b: seq<Byte>)
    ensures Decode(b) == Err(ProtocolMismatch) <==> forall f: Fragment :: f.Valid() ==> Encode(f) != b
  {
    if Decode(b).Ok? { EncodeDecode(b); }
    forall f: Fragment | f.Valid() && Encode(f) == b ensures Decode(b) == Ok(f) { DecodeEncode(f); }
  }

  // The number that octets spell, most significant first.
  function Spelled(b: seq<Byte>): nat {
    if b == [] then 0
    else
      var low: int := b[|b| - 1];
      Spelled(b[..|b| - 1]) * 0x100 + low
  }

  // The envelope on the wire: the sequence number, one octet of flags, the length, and the
  // payload.
  lemma EnvelopeLayout(f: Fragment)
    requires f.Valid()
    ensures var b := Encode(f);
            && |b| == HEADER_BYTES + |f.bytes| && b[HEADER_BYTES..] == f.bytes
            && Spelled(b[..4]) == f.sequence && Spelled(b[5..7]) == |f.bytes|
            && b[4] == (if f.start then 1 else 0) + (if f.end then 2 else 0)
  {
    var b := Encode(f);
    SpelledFour(b[0], b[1], b[2], b[3]);
    assert b[..4] == [b[0], b[1], b[2], b[3]] && b[5..7] == [b[5], b[6]];
    SpelledTwo(b[5], b[6]);
  }

  lemma SpelledTwo(x: Byte, y: Byte)
    ensures var high: int, low: int := x, y; Spelled([x, y]) == high * 0x100 + low
  {
    var high: int := x;
    assert [x, y][..1] == [x] && [x][..0] == [];
    assert Spelled([x]) == Spelled([]) * 0x100 + high;
  }

  lemma SpelledFour(x: Byte, y: Byte, z: Byte, w: Byte)
    ensures var b0: int, b1: int, b2: int, b3: int := x, y, z, w;
            Spelled([x, y, z, w]) == (b0 * 0x100 + b1) * 0x1_0000 + (b2 * 0x100 + b3)
  {
    SpelledTwo(x, y);
    assert [x, y, z][..2] == [x, y] && [x, y, z, w][..3] == [x, y, z];
  }

  // ---------- cutting ----------

  // The fragments of what is left of a frame, numbered from `k`.
  function Pieces(rest: seq<Byte>, size: nat, k: nat): (fragments: seq<Fragment>)
    requires size > 0
    ensures 0 < |fragments| <= |rest| + 1
  {
    if |rest| <= size then [Fragment(k, k == 0, true, rest)]
    else [Fragment(k, k == 0, false, rest[..size])] + Pieces(rest[size..], size, k + 1)
  }

  // V1 numbers the fragments of every frame from 0.
  function Split(frame: seq<Byte>, size: nat): (fragments: seq<Fragment>)
    requires size > 0
    ensures 0 < |fragments| <= |frame| + 1
  {
    Pieces(frame, size, 0)
  }

  // The fragment that starts at `offset`.
  function PieceAt(frame: seq<Byte>, size: nat, offset: nat, k: nat): Fragment
    requires offset < |frame|
  {
    Fragment(k, k == 0, offset + size >= |frame|, frame[offset..Min(offset + size, |frame|)])
  }

  method SplitFrame(frame: seq<Byte>, size: nat) returns (r: Result<seq<Fragment>>)
    requires size > 0
    ensures r == if frame == [] then Err(InvalidArgument) else Ok(Split(frame, size))
  {
    if frame == [] { return Err(InvalidArgument); }
    var fragments: seq<Fragment> := [];
    var offset := 0;
    assert frame[0..] == frame;
    while offset < |frame|
      invariant 0 <= offset
      invariant Split(frame, size) == fragments + Remaining(frame, size, offset, |fragments|)
      decreases |frame| - offset
    {
      RemainingStep(frame, size, offset, fragments);
      fragments := fragments + [PieceAt(frame, size, offset, |fragments|)];
      offset := offset + size;
    }
    assert fragments + Remaining(frame, size, offset, |fragments|) == fragments;
    r := Ok(fragments);
  }

  ghost function Remaining(frame: seq<Byte>, size: nat, offset: nat, k: nat): seq<Fragment>
    requires size > 0
  {
    if offset >= |frame| then [] else Pieces(frame[offset..], size, k)
  }

  lemma RemainingStep(frame: seq<Byte>, size: nat, offset: nat, done: seq<Fragment>)
    requires size > 0 && offset < |frame|
    ensures done + Remaining(frame, size, offset, |done|)
            == (done + [PieceAt(frame, size, offset, |done|)]) + Remaining(frame, size, offset + size, |done| + 1)
  {
    var piece := PieceAt(frame, size, offset, |done|);
    if offset + size < |frame| {
      assert frame[offset..][size..] == frame[offset + size..];
      assert frame[offset..][..size] == piece.bytes;
    } else {
      assert frame[offset..] == piece.bytes;
    }
    assert Remaining(frame, size, offset, |done|) == [piece] + Remaining(frame, size, offset + size, |done| + 1);
  }

  function Payload(fragments: seq<Fragment>): seq<Byte> {
    if fragments == [] then [] else fragments[0].bytes + Payload(fragments[1..])
  }

  // The fragments tile the frame: in order and without gap or overlap, each within the
  // size and all but the last full, numbered 0, 1, 2, ..., with START only on the first
  // and END only on the last.
  lemma {:induction false} PiecesTile(rest: seq<Byte>, size: nat, k: nat)
    requires size > 0
    ensures var fragments := Pieces(rest, size, k);
            && Payload(fragments) == rest
            && (forall i :: 0 <= i < |fragments| ==>
                  && fragments[i].sequence == k + i
                  && fragments[i].start == (k + i == 0)
                  && fragments[i].end == (i == |fragments| - 1)
                  && |fragments[i].bytes| <= size
                  && (i < |fragments| - 1 ==> |fragments[i].bytes| == size))
  {
    var fragments := Pieces(rest, size, k);
    if |rest| > size {
      PiecesTile(rest[size..], size, k + 1);
      assert fragments[1..] == Pieces(rest[size..], size, k + 1);
      assert rest == rest[..size] + rest[size..];
    } else {
      assert Payload(fragments) == fragments[0].bytes + Payload([]);
    }
  }

  // ---------- putting together ----------

  datatype Partial = Partial(buffer: seq<Byte>, next: Option<nat>, progress: Option<nat>)

  const IDLE := Partial([], None, None)

  datatype Bounds = Bounds(maxBytes: nat, timeoutMs: nat)

  const LINK_BOUNDS := Bounds(16384 + 62 + 16, 5000)

  function Expired(s: Partial, bounds: Bounds, now: nat): Partial {
    if s.progress.Some? && now - s.progress.value >= bounds.timeoutMs then IDLE else s
  }

  function Add(s: Partial, bounds: Bounds, f: Fragment, now: nat): (Result<Option<seq<Byte>>>, Partial) {
    var live := Expired(s, bounds, now);
    if f.start && (live.next.Some? || f.sequence != 0) then (Err(ProtocolMismatch), IDLE)
    else if !f.start && live.next != Some(f.sequence) then (Err(ProtocolMismatch), IDLE)
    else if |live.buffer| + |f.bytes| > bounds.maxBytes then (Err(ResourceExhausted), IDLE)
    else if f.end then (Ok(Some(live.buffer + f.bytes)), IDLE)
    else (Ok(None), Partial(live.buffer + f.bytes, Some(f.sequence + 1), Some(now)))
  }

  // A fragment counts as the first of a frame, or continues the frame in progress.
  predicate Fresh(s: Partial, bounds: Bounds, now: nat) { s.progress.Some? ==> now - s.progress.value < bounds.timeoutMs }

  predicate Starts(s: Partial, bounds: Bounds, f: Fragment, now: nat) {
    f.start && f.sequence == 0 && (s.next.None? || !Fresh(s, bounds, now))
  }

  predicate Continues(s: Partial, bounds: Bounds, f: Fragment, now: nat) {
    !f.start && Fresh(s, bounds, now) && s.next == Some(f.sequence)
  }

  // Every outcome: a fragment that neither starts nor continues a frame, or that exceeds
  // the bound, leaves nothing; any other is appended, and an END completes the frame.
  lemma AddDecided(s: Partial, bounds: Bounds, f: Fragment, now: nat)
    requires s.next.None? ==> s == IDLE
    ensures var (r, s') := Add(s, bounds, f, now);
            var fits := Starts(s, bounds, f, now) || Continues(s, bounds, f, now);
            var whole := (if f.start then [] else s.buffer) + f.bytes;
            && (r == Err(ProtocolMismatch) <==> !fits)
            && (r == Err(ResourceExhausted) <==> fits && |whole| > bounds.maxBytes)
            && (r == Ok(Some(whole)) <==> fits && |whole| <= bounds.maxBytes && f.end)
            && (r == Ok(None) <==> fits && |whole| <= bounds.maxBytes && !f.end)
            && s' == (if r == Ok(None) then Partial(whole, Some(f.sequence + 1), Some(now)) else IDLE)
  {
  }

  class GattReassembler {
    const bounds: Bounds
    var buffer: seq<Byte>
    var next: Option<nat>
    var progress: Option<nat>

    ghost function Contents(): Partial
      reads this
    {
      Partial(buffer, next, progress)
    }

    // What is buffered never exceeds the bound, and an idle reassembler holds nothing.
    ghost predicate Valid()
      reads this
    {
      |buffer| <= bounds.maxBytes && (next.None? ==> Contents() == IDLE) && (next.Some? ==> progress.Some?)
    }

    constructor (bounds: Bounds)
      ensures Valid() && Contents() == IDLE && this.bounds == bounds
    {
      this.bounds := bounds;
      buffer, next, progress := [], None, None;
    }

    method Reset()
      modifies this
      ensures Contents() == IDLE
    {
      buffer, next, progress := [], None, None;
    }

    method DiscardExpired(now: nat) returns (discarded: bool)
      requires Valid()
      modifies this
      ensures Valid() && Contents() == Expired(old(Contents()), bounds, now)
      ensures discarded <==> old(progress).Some? && now - old(progress).value >= bounds.timeoutMs
    {
      if progress.None? || now - progress.value < bounds.timeoutMs { return false; }
      Reset();
      discarded := true;
    }

    method AddFragment(f: Fragment, now: nat) returns (r: Result<Option<seq<Byte>>>)
      requires Valid()
      modifies this
      ensures Valid() && (r, Contents()) == Add(old(Contents()), bounds, f, now)
    {
      var _ := DiscardExpired(now);
      if f.start {
        if next.Some? || f.sequence != 0 {
          Reset();
          return Err(ProtocolMismatch);
        }
      } else if next.None? || f.sequence != next.value {
        Reset();
        return Err(ProtocolMismatch);
      }
      if |buffer| + |f.bytes| > bounds.maxBytes {
        Reset();
        return Err(ResourceExhausted);
      }
      buffer := buffer + f.bytes;
      next, progress := Some(f.sequence + 1), Some(now);
      if !f.end { return Ok(None); }
      var completed := buffer;
      Reset();
      r := Ok(Some(completed));
    }
  }
}
