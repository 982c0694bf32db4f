/**
 What a reassembler makes of the fragments of a list of frames, delivered one after the
 other at any times and cut off anywhere.
 */
module GattStream {
  import opened Types
  import opened GattFragment

  // ---------- feeding fragments ----------

  function Feed(s: Partial, bounds: Bounds, fs: seq<Fragment>, ts: seq<nat>): (seq<seq<Byte>>, Partial)
    requires |fs| == |ts|
    decreases |fs|
  {
    if fs == [] then ([], s)
    else
      var (r, s1) := Add(s, bounds, fs[0], ts[0]);
      var (rest, s2) := Feed(s1, bounds, fs[1..], ts[1..]);
      (if r.Ok? && r.value.Some? then [r.value.value] + rest else rest, s2)
  }

  lemma {:induction false} FeedConcat(s: Partial, bounds: Bounds, fs: seq<Fragment>, gs: seq<Fragment>, ts: seq<nat>, us: seq<nat>)
    requires |fs| == |ts| && |gs| == |us|
    ensures var (first, s1) := Feed(s, bounds, fs, ts);
            var (second, s2) := Feed(s1, bounds, gs, us);
            Feed(s, bounds, fs + gs, ts + us) == (first + second, s2)
    decreases |fs|
  {
    if fs == [] {
      assert fs + gs == gs && ts + us == us;
      var (second, _) := Feed(s, bounds, gs, us);
      assert [] + second == second;
    } else {
      var (r, s1) := Add(s, bounds, fs[0], ts[0]);
      assert (fs + gs)[1..] == fs[1..] + gs && (ts + us)[1..] == ts[1..] + us;
      FeedConcat(s1, bounds, fs[1..], gs, ts[1..], us);
      var (mid, s2) := Feed(s1, bounds, fs[1..], ts[1..]);
      var (second, _) := Feed(s2, bounds, gs, us);
      if r.Ok? && r.value.Some? { assert [r.value.value] + (mid + second) == ([r.value.value] + mid) + second; }
    }
  }

  lemma FeedOne(s: Partial, bounds: Bounds, f: Fragment, t: nat)
    ensures var (r, s1) := Add(s, bounds, f, t);
            Feed(s, bounds, [f], [t]) == (if r.Ok? && r.value.Some? then [r.value.value] else [], s1)
  {
    assert [f][1..] == [] && [t][1..] == [];
    var (r, s1) := Add(s, bounds, f, t);
    var (rest, s2) := Feed(s1, bounds, [], []);
    assert rest == [] && s2 == s1;
    if r.Ok? && r.value.Some? { assert [r.value.value] + rest == [r.value.value]; }
  }

  // The gaps between the fragments of one frame, after the one that arrived at `last`.
  predicate Prompt(last: nat, ts: seq<nat>, timeoutMs: nat)
    decreases |ts|
  {
    ts == [] || (ts[0] - last < timeoutMs && Prompt(ts[0], ts[1..], timeoutMs))
  }

  // After a lost fragment the rest of the frame is refused, fragment by fragment.
  lemma {:induction false} FeedLost(bounds: Bounds, rest: seq<Byte>, size: nat, k: nat, ts: seq<nat>)
    requires size > 0 && k > 0 && |ts| == |Pieces(rest, size, k)|
    ensures Feed(IDLE, bounds, Pieces(rest, size, k), ts) == ([], IDLE)
    decreases |rest|
  {
    var fs := Pieces(rest, size, k);
    assert Add(IDLE, bounds, fs[0], ts[0]) == (Err(ProtocolMismatch), IDLE);
    if |rest| > size {
      assert fs[1..] == Pieces(rest[size..], size, k + 1);
      FeedLost(bounds, rest[size..], size, k + 1, ts[1..]);
    } else {
      assert Feed(IDLE, bounds, fs[1..], ts[1..]) == ([], IDLE);
    }
  }

  // The rest of a frame behind what is already buffered.
  lemma {:induction false} FeedPieces(bounds: Bounds, buffer: seq<Byte>, rest: seq<Byte>, size: nat, k: nat, last: nat, ts: seq<nat>)
    requires size > 0 && k > 0 && |ts| == |Pieces(rest, size, k)| && bounds.timeoutMs > 0
    ensures Feed(Partial(buffer, Some(k), Some(last)), bounds, Pieces(rest, size, k), ts)
            == (if |buffer| + |rest| <= bounds.maxBytes && Prompt(last, ts, bounds.timeoutMs) then [buffer + rest] else [], IDLE)
    decreases |rest|
  {
    var s, fs := Partial(buffer, Some(k), Some(last)), Pieces(rest, size, k);
    var (r, s1) := Add(s, bounds, fs[0], ts[0]);
    if |rest| <= size {
      assert ts == [ts[0]] && ts[1..] == [];
      FeedOne(s, bounds, fs[0], ts[0]);
    } else {
      assert fs[1..] == Pieces(rest[size..], size, k + 1);
      if r.Err? {
        FeedLost(bounds, rest[size..], size, k + 1, ts[1..]);
      } else {
        FeedPieces(bounds, buffer + rest[..size], rest[size..], size, k + 1, ts[0], ts[1..]);
        assert buffer + rest[..size] + rest[size..] == buffer + rest;
      }
    }
  }

  // A frame arrives exactly when it fits and no gap inside it reaches the timeout.
  predicate Arrives(frame: seq<Byte>, bounds: Bounds, ts: seq<nat>) {
    |frame| <= bounds.maxBytes && (ts == [] || Prompt(ts[0], ts[1..], bounds.timeoutMs))
  }

  lemma FeedFrame(bounds: Bounds, frame: seq<Byte>, size: nat, ts: seq<nat>)
    requires size > 0 && |ts| == |Split(frame, size)| && bounds.timeoutMs > 0
    ensures Feed(IDLE, bounds, Split(frame, size), ts) == (if Arrives(frame, bounds, ts) then [frame] else [], IDLE)
  {
    var fs := Split(frame, size);
    var (r, s1) := Add(IDLE, bounds, fs[0], ts[0]);
    if |frame| <= size {
      assert ts == [ts[0]] && ts[1..] == [];
      FeedOne(IDLE, bounds, fs[0], ts[0]);
      assert IDLE.buffer + frame == frame;
    } else {
      assert fs[1..] == Pieces(frame[size..], size, 1);
      assert IDLE.buffer + frame[..size] == frame[..size];
      if r.Err? {
        FeedLost(bounds, frame[size..], size, 1, ts[1..]);
      } else {
        FeedPieces(bounds, frame[..size], frame[size..], size, 1, ts[0], ts[1..]);
        assert frame[..size] + frame[size..] == frame;
      }
    }
  }

  // ---------- a list of frames, cut off anywhere ----------

  function Stream(frames: seq<seq<Byte>>, size: nat): seq<Fragment>
    requires size > 0
  {
    if frames == [] then [] else Split(frames[0], size) + Stream(frames[1..], size)
  }

  // Of the frames that arrived completely, those that fit and came promptly.
  function Expected(frames: seq<seq<Byte>>, size: nat, bounds: Bounds, ts: seq<nat>): seq<seq<Byte>>
    requires size > 0
  {
    if frames == [] || |ts| < |Split(frames[0], size)| then []
    else
      var n := |Split(frames[0], size)|;
      var rest := Expected(frames[1..], size, bounds, ts[n..]);
      if Arrives(frames[0], bounds, ts[..n]) then [frames[0]] + rest else rest
  }

  lemma {:induction false} NoEndNoFrame(s: Partial, bounds: Bounds, fs: seq<Fragment>, ts: seq<nat>)
    requires |fs| == |ts| && forall i :: 0 <= i < |fs| ==> !fs[i].end
    ensures Feed(s, bounds, fs, ts).0 == []
    decreases |fs|
  {
    if fs != [] {
      NoEndNoFrame(Add(s, bounds, fs[0], ts[0]).1, bounds, fs[1..], ts[1..]);
    }
  }

  // Whatever the lengths, times and cut, exactly those frames come out, whole, unmixed
  // and in order.
  lemma {:induction false} StreamArrives(frames: seq<seq<Byte>>, size: nat, bounds: Bounds, ts: seq<nat>)
    requires size > 0 && bounds.timeoutMs > 0 && |ts| <= |Stream(frames, size)|
    ensures Feed(IDLE, bounds, Stream(frames, size)[..|ts|], ts).0 == Expected(frames, size, bounds, ts)
  {
    if frames == [] {
    } else {
      var first := Split(frames[0], size);
      var n := |first|;
      var stream := Stream(frames, size);
      if |ts| < n {
        assert stream[..|ts|] == first[..|ts|];
        PiecesTile(frames[0], size, 0);
        NoEndNoFrame(IDLE, bounds, first[..|ts|], ts);
      } else {
        var rest := Stream(frames[1..], size);
        assert stream[..|ts|] == first + rest[..|ts| - n];
        assert ts == ts[..n] + ts[n..];
        FeedFrame(bounds, frames[0], size, ts[..n]);
        FeedConcat(IDLE, bounds, first, rest[..|ts| - n], ts[..n], ts[n..]);
        StreamArrives(frames[1..], size, bounds, ts[n..]);
      }
    }
  }

  // With frames that fit, and no gap as long as the timeout, what comes out is a prefix.
  lemma {:induction false} PromptArrivalsArePrefix(frames: seq<seq<Byte>>, size: nat, bounds: Bounds, ts: seq<nat>)
    requires size > 0
    requires forall i :: 0 <= i < |frames| ==> |frames[i]| <= bounds.maxBytes
    requires Steady(ts, bounds.timeoutMs)
    ensures Expected(frames, size, bounds, ts) <= frames
  {
    if frames != [] && |ts| >= |Split(frames[0], size)| {
      var n := |Split(frames[0], size)|;
      GapsArePrompt(ts[..n], bounds.timeoutMs);
      assert Steady(ts[n..], bounds.timeoutMs);
      PromptArrivalsArePrefix(frames[1..], size, bounds, ts[n..]);
    }
  }

  // No two fragments in a row are as far apart as the timeout.
  ghost predicate Steady(ts: seq<nat>, timeoutMs: nat) {
    forall i, j :: 0 <= i < j < |ts| && j == i + 1 ==> ts[j] - ts[i] < timeoutMs
  }

  lemma {:induction false} GapsArePrompt(ts: seq<nat>, timeoutMs: nat)
    requires ts != [] && Steady(ts, timeoutMs)
    ensures Prompt(ts[0], ts[1..], timeoutMs)
    decreases |ts|
  {
    if |ts| > 1 {
      assert ts[1] - ts[0] < timeoutMs;
      assert Steady(ts[1..], timeoutMs);
      GapsArePrompt(ts[1..], timeoutMs);
    }
  }
}
