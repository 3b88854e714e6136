/** The rewriter over whole streams, however they are cut into chunks. */
module Streams {
  import opened Bytes
  import opened Json
  import opened ErrorMapping
  import opened Framing
  import opened SseMapper

  /** Push the chunks one after another. */
  function RunChunks(lib: Library, mapping: Mapping, s: State, chunks: seq<Text>): (State, Text)
    decreases |chunks|
  {
    if chunks == [] then (s, [])
    else
      var (t, out) := Pushed(lib, mapping, s, chunks[0]);
      var (u, more) := RunChunks(lib, mapping, t, chunks[1..]);
      (u, out + more)
  }

  /** Everything a new mapper emits for the chunks, and then for finish. */
  function Emitted(lib: Library, mapping: Mapping, chunks: seq<Text>): Text {
    var (s, out) := RunChunks(lib, mapping, EMPTY, chunks);
    out + s.pending
  }

  /** The reference: split the whole stream, rewrite every event, keep the tail. */
  function Whole(lib: Library, mapping: Mapping, stream: Text): Text {
    Rewritten(lib, mapping, Frames(stream)) + Tail(stream)
  }

  // ----- Conservation -----

  /** With the first `k` events rewritten and the rest passed through. */
  function MixedFrames(lib: Library, mapping: Mapping, frames: seq<Text>, tail: Text, k: nat): Text
    requires k <= |frames|
  {
    Rewritten(lib, mapping, frames[..k]) + Concat(frames[k..]) + tail
  }

  function Mixed(lib: Library, mapping: Mapping, stream: Text, k: nat): Text
    requires k <= |Frames(stream)|
  {
    MixedFrames(lib, mapping, Frames(stream), Tail(stream), k)
  }

  /** Passing through started inside event `k`, or inside the tail, which is too long to buffer. */
  predicate Oversize(stream: Text, k: nat)
    requires k <= |Frames(stream)|
  {
    if k < |Frames(stream)| then |Frames(stream)[k]| > MAX_PENDING + 1 else |Tail(stream)| > MAX_PENDING
  }

  lemma {:induction false} BypassCopies(lib: Library, mapping: Mapping, s: State, chunks: seq<Text>)
    requires s.bypass
    ensures RunChunks(lib, mapping, s, chunks) == (s, Concat(chunks))
    decreases |chunks|
  {
    if chunks != [] {
      BypassCopies(lib, mapping, s, chunks[1..]);
    }
  }

  lemma {:induction false} FirstChunk(lib: Library, mapping: Mapping, s: State, chunks: seq<Text>)
    requires chunks != []
    ensures s.pending + Concat(chunks) == (s.pending + chunks[0]) + Concat(chunks[1..])
  {
  }

  /** While nothing is bypassed the output is the rewrite of the complete events, and the open
      tail, at most 1 MiB, is still in the buffer. */
  ghost predicate Buffered(lib: Library, mapping: Mapping, stream: Text, s: State, out: Text) {
    && !s.bypass
    && out == Rewritten(lib, mapping, Frames(stream))
    && s.pending == Tail(stream)
    && |s.pending| <= MAX_PENDING
  }

  /** Once bypass has started the buffer is empty and the rest has been copied. */
  ghost predicate Bypassed(lib: Library, mapping: Mapping, stream: Text, s: State, out: Text) {
    && s.bypass && s.pending == []
    && exists k :: 0 <= k <= |Frames(stream)| && Oversize(stream, k) && out == Mixed(lib, mapping, stream, k)
  }

  /** Where bypass starts: the buffered tail `x` of the stream `x + y` is too long. */
  lemma {:induction false} LongTailIsOversize(x: Text, y: Text)
    requires Open(x) && |x| > MAX_PENDING
    ensures Oversize(x + y, 0)
  {
    if !Open(x + y) {
      OpenIsShort(x, y);
    }
  }

  lemma {:induction false} MixedOf(lib: Library, mapping: Mapping, f: seq<Text>, g: seq<Text>, tail: Text, k: nat)
    requires k <= |g|
    ensures MixedFrames(lib, mapping, f + g, tail, |f| + k) == Rewritten(lib, mapping, f) + MixedFrames(lib, mapping, g, tail, k)
  {
    assert (f + g)[..|f| + k] == f + g[..k];
    assert (f + g)[|f| + k..] == g[k..];
    RewrittenAppend(lib, mapping, f, g[..k]);
    Regroup(Rewritten(lib, mapping, f), Rewritten(lib, mapping, g[..k]), Concat(g[k..]), tail);
  }

  lemma {:induction false} MixedAfter(lib: Library, mapping: Mapping, x: Text, y: Text, k: nat)
    requires k <= |Frames(Tail(x) + y)|
    ensures |Frames(x)| + k <= |Frames(x + y)|
    ensures Mixed(lib, mapping, x + y, |Frames(x)| + k) == Rewritten(lib, mapping, Frames(x)) + Mixed(lib, mapping, Tail(x) + y, k)
    ensures Oversize(x + y, |Frames(x)| + k) == Oversize(Tail(x) + y, k)
  {
    SplitInSteps(x, y);
    MixedOf(lib, mapping, Frames(x), Frames(Tail(x) + y), Tail(Tail(x) + y), k);
  }

  lemma {:induction false} Regroup(a: Text, b: Text, c: Text, d: Text)
    ensures ((a + b) + c) + d == a + ((b + c) + d)
  {
  }

  lemma {:induction false} MixedNone(lib: Library, mapping: Mapping, stream: Text)
    ensures Mixed(lib, mapping, stream, 0) == stream
  {
    FramesAndTail(stream);
    assert Rewritten(lib, mapping, Frames(stream)[..0]) == [];
    assert Frames(stream)[0..] == Frames(stream);
    assert [] + Concat(Frames(stream)) + Tail(stream) == Concat(Frames(stream)) + Tail(stream);
  }

  /** Conservation: for every chunk sequence, total output plus buffer is the stream with some
      first complete events replaced by their rewrite; nothing is lost, repeated or reordered. */
  lemma {:induction false} Conservation(lib: Library, mapping: Mapping, s: State, chunks: seq<Text>)
    requires !s.bypass && Open(s.pending) && |s.pending| <= MAX_PENDING
    ensures var stream := s.pending + Concat(chunks);
            var (t, out) := RunChunks(lib, mapping, s, chunks);
            Buffered(lib, mapping, stream, t, out) || Bypassed(lib, mapping, stream, t, out)
    decreases |chunks|
  {
    if chunks == [] {
      assert s.pending + Concat(chunks) == s.pending;
    } else {
      var x, y := s.pending + chunks[0], Concat(chunks[1..]);
      FirstChunk(lib, mapping, s, chunks);
      FramesAndTail(x);
      var (t, out) := Pushed(lib, mapping, s, chunks[0]);
      var (u, more) := RunChunks(lib, mapping, t, chunks[1..]);
      if t.bypass {
        BypassCopies(lib, mapping, t, chunks[1..]);
        BypassStarts(lib, mapping, x, y);
      } else {
        Conservation(lib, mapping, t, chunks[1..]);
        StepOn(lib, mapping, x, y, u, more);
      }
    }
  }

  lemma {:induction false} BypassStarts(lib: Library, mapping: Mapping, x: Text, y: Text)
    requires |Tail(x)| > MAX_PENDING
    ensures Bypassed(lib, mapping, x + y, State([], true), Rewritten(lib, mapping, Frames(x)) + Tail(x) + y)
  {
    FramesAndTail(x);
    LongTailIsOversize(Tail(x), y);
    MixedAfter(lib, mapping, x, y, 0);
    MixedNone(lib, mapping, Tail(x) + y);
    assert Rewritten(lib, mapping, Frames(x)) + Tail(x) + y == Rewritten(lib, mapping, Frames(x)) + (Tail(x) + y);
  }

  lemma {:induction false} StepOn(lib: Library, mapping: Mapping, x: Text, y: Text, u: State, more: Text)
    requires Buffered(lib, mapping, Tail(x) + y, u, more) || Bypassed(lib, mapping, Tail(x) + y, u, more)
    ensures var out := Rewritten(lib, mapping, Frames(x)) + more;
            Buffered(lib, mapping, x + y, u, out) || Bypassed(lib, mapping, x + y, u, out)
  {
    SplitInSteps(x, y);
    if u.bypass {
      var k :| 0 <= k <= |Frames(Tail(x) + y)| && Oversize(Tail(x) + y, k) && more == Mixed(lib, mapping, Tail(x) + y, k);
      MixedAfter(lib, mapping, x, y, k);
    } else {
      RewrittenAppend(lib, mapping, Frames(x), Frames(Tail(x) + y));
    }
  }

  // ----- Independence of fragmentation -----

  /** However the stream is cut, the mapper emits the reference. */
  ghost predicate CutsAgree(lib: Library, mapping: Mapping, stream: Text) {
    forall chunks: seq<Text> :: Concat(chunks) == stream ==> Emitted(lib, mapping, chunks) == Whole(lib, mapping, stream)
  }

  /** From each event too long to be buffered on, rewriting would change nothing. */
  ghost predicate OversizeIsPlain(lib: Library, mapping: Mapping, stream: Text) {
    forall k :: 0 <= k < |Frames(stream)| && |Frames(stream)[k]| > MAX_PENDING + 1 ==>
      Concat(Frames(stream)[k..]) == Rewritten(lib, mapping, Frames(stream)[k..])
  }

  lemma {:induction false} WholeAt(lib: Library, mapping: Mapping, stream: Text, k: nat)
    requires k <= |Frames(stream)|
    ensures Whole(lib, mapping, stream) ==
            Rewritten(lib, mapping, Frames(stream)[..k]) + Rewritten(lib, mapping, Frames(stream)[k..]) + Tail(stream)
  {
    assert Frames(stream) == Frames(stream)[..k] + Frames(stream)[k..];
    RewrittenAppend(lib, mapping, Frames(stream)[..k], Frames(stream)[k..]);
  }

  lemma {:induction false} PlainCutsAgree(lib: Library, mapping: Mapping, stream: Text, chunks: seq<Text>)
    requires OversizeIsPlain(lib, mapping, stream) && Concat(chunks) == stream
    ensures Emitted(lib, mapping, chunks) == Whole(lib, mapping, stream)
  {
    Conservation(lib, mapping, EMPTY, chunks);
    assert [] + Concat(chunks) == stream;
    var (s, out) := RunChunks(lib, mapping, EMPTY, chunks);
    if s.bypass {
      var k :| 0 <= k <= |Frames(stream)| && Oversize(stream, k) && out == Mixed(lib, mapping, stream, k);
      WholeAt(lib, mapping, stream, k);
      assert Frames(stream)[|Frames(stream)|..] == [];
      assert out + [] == out;
    }
  }

  /** A cut that overflows the buffer inside event `k`. */
  function Overflowing(stream: Text, k: nat): seq<Text>
    requires k < |Frames(stream)| && |Frames(stream)[k]| > 0
  {
    var f := Frames(stream)[k];
    [Concat(Frames(stream)[..k]), f[..|f| - 1], [f[|f| - 1]] + (Concat(Frames(stream)[k + 1..]) + Tail(stream))]
  }

  lemma {:induction false} OverflowingIsACut(stream: Text, k: nat)
    requires k < |Frames(stream)| && |Frames(stream)[k]| > 0
    ensures Concat(Overflowing(stream, k)) == stream
    ensures var f := Frames(stream)[k];
            f[..|f| - 1] + ([f[|f| - 1]] + (Concat(Frames(stream)[k + 1..]) + Tail(stream))) == Concat(Frames(stream)[k..]) + Tail(stream)
  {
    var fs, f := Frames(stream), Frames(stream)[k];
    var before, rest := Concat(fs[..k]), Concat(fs[k + 1..]);
    FramesAndTail(stream);
    assert fs == fs[..k] + fs[k..];
    ConcatAppend(fs[..k], fs[k..]);
    assert fs[k..] == [f] + fs[k + 1..];
    assert Concat(fs[k..]) == f + rest;
    Associative(f, rest, Tail(stream));
    Associative(before, f + rest, Tail(stream));
    LastByteLater(f, rest + Tail(stream));
    ThreeChunks(before, f[..|f| - 1], [f[|f| - 1]] + (rest + Tail(stream)));
  }

  lemma {:induction false} LastByteLater(f: Text, rest: Text)
    requires f != []
    ensures f[..|f| - 1] + ([f[|f| - 1]] + rest) == f + rest
  {
    assert f == f[..|f| - 1] + [f[|f| - 1]];
    Associative(f[..|f| - 1], [f[|f| - 1]], rest);
  }

  lemma {:induction false} ThreeChunks(a: Text, b: Text, c: Text)
    ensures Concat([a, b, c]) == a + (b + c)
  {
    assert [a, b, c][1..] == [b, c] && [b, c][1..] == [c] && [c][1..] == [];
    assert Concat([c]) == c + [] == c;
    assert Concat([b, c]) == b + c;
  }

  lemma {:induction false} OverflowingCopies(lib: Library, mapping: Mapping, stream: Text, k: nat)
    requires k < |Frames(stream)| && |Frames(stream)[k]| > MAX_PENDING + 1
    ensures Emitted(lib, mapping, Overflowing(stream, k)) == Mixed(lib, mapping, stream, k)
  {
    var fs, f := Frames(stream), Frames(stream)[k];
    FramesAreFrames(stream);
    PushOverflow(lib, mapping, fs[..k], f, Concat(fs[k + 1..]) + Tail(stream));
    OverflowingIsACut(stream, k);
    var out, b, c := Rewritten(lib, mapping, fs[..k]), f[..|f| - 1], [f[|f| - 1]] + (Concat(fs[k + 1..]) + Tail(stream));
    assert Overflowing(stream, k) == [Concat(fs[..k]), b, c];
    assert b + c == Concat(fs[k..]) + Tail(stream);
    Associative(out, Concat(fs[k..]), Tail(stream));
  }

  lemma {:induction false} PushOverflow(lib: Library, mapping: Mapping, fs: seq<Text>, f: Text, rest: Text)
    requires (forall x :: x in fs ==> IsFrame(x)) && IsFrame(f) && |f| > MAX_PENDING + 1
    ensures var b, c := f[..|f| - 1], [f[|f| - 1]] + rest;
            Emitted(lib, mapping, [Concat(fs), b, c]) == Rewritten(lib, mapping, fs) + (b + c)
  {
    var b, c := f[..|f| - 1], [f[|f| - 1]] + rest;
    PushFrames(lib, mapping, fs);
    CutFrameIsOpen(f);
    PushOverlong(lib, mapping, b);
    ThreePushes(lib, mapping, Concat(fs), b, c, Rewritten(lib, mapping, fs));
  }

  lemma {:induction false} PushFrames(lib: Library, mapping: Mapping, fs: seq<Text>)
    requires forall f :: f in fs ==> IsFrame(f)
    ensures Pushed(lib, mapping, EMPTY, Concat(fs)) == (EMPTY, Rewritten(lib, mapping, fs))
  {
    FramesOfFrames(fs, []);
    assert [] + Concat(fs) == Concat(fs) + [] == Concat(fs);
  }

  lemma {:induction false} PushOverlong(lib: Library, mapping: Mapping, b: Text)
    requires Open(b) && |b| > MAX_PENDING
    ensures Pushed(lib, mapping, EMPTY, b) == (State([], true), b)
  {
    assert [] + b == b;
  }

  lemma {:induction false} ThreePushes(lib: Library, mapping: Mapping, a: Text, b: Text, c: Text, out: Text)
    requires Pushed(lib, mapping, EMPTY, a) == (EMPTY, out)
    requires Pushed(lib, mapping, EMPTY, b) == (State([], true), b)
    ensures Emitted(lib, mapping, [a, b, c]) == out + (b + c)
  {
    assert [a, b, c][1..] == [b, c] && [b, c][1..] == [c];
    BypassCopies(lib, mapping, State([], true), [c]);
    assert Concat([c]) == c;
    assert RunChunks(lib, mapping, EMPTY, [b, c]) == (State([], true), b + c);
    assert RunChunks(lib, mapping, EMPTY, [a, b, c]) == (State([], true), out + (b + c));
    assert (out + (b + c)) + [] == out + (b + c);
  }

  /** The exact condition: every way of cutting the stream gives the reference output if and only
      if rewriting changes nothing from any oversize event on. */
  lemma {:induction false} CutsAgreeIff(lib: Library, mapping: Mapping, stream: Text)
    ensures CutsAgree(lib, mapping, stream) <==> OversizeIsPlain(lib, mapping, stream)
  {
    if OversizeIsPlain(lib, mapping, stream) {
      forall chunks: seq<Text> | Concat(chunks) == stream
        ensures Emitted(lib, mapping, chunks) == Whole(lib, mapping, stream)
      {
        PlainCutsAgree(lib, mapping, stream, chunks);
      }
    }
    if CutsAgree(lib, mapping, stream) {
      forall k | 0 <= k < |Frames(stream)| && |Frames(stream)[k]| > MAX_PENDING + 1
        ensures Concat(Frames(stream)[k..]) == Rewritten(lib, mapping, Frames(stream)[k..])
      {
        OverflowingIsACut(stream, k);
        OverflowingCopies(lib, mapping, stream, k);
        WholeAt(lib, mapping, stream, k);
        Cancel(Rewritten(lib, mapping, Frames(stream)[..k]), Concat(Frames(stream)[k..]),
               Rewritten(lib, mapping, Frames(stream)[k..]), Tail(stream));
      }
    }
  }

  lemma {:induction false} OneEvent(lib: Library, mapping: Mapping, f: Text)
    requires IsFrame(f)
    ensures Frames(f) == [f] && Tail(f) == []
    ensures Whole(lib, mapping, f) == RewriteFrame(lib, mapping, f)
  {
    FrameIsOneEvent(f);
    RewrittenFirst(lib, mapping, f, []);
    assert [f] + [] == [f];
    assert RewriteFrame(lib, mapping, f) + [] == RewriteFrame(lib, mapping, f);
  }

  lemma {:induction false} OnePush(lib: Library, mapping: Mapping, stream: Text)
    requires |Tail(stream)| <= MAX_PENDING
    ensures Concat([stream]) == stream && Emitted(lib, mapping, [stream]) == Whole(lib, mapping, stream)
  {
    var t, out := State(Tail(stream), false), Rewritten(lib, mapping, Frames(stream));
    assert [stream][1..] == [] && [] + stream == stream;
    assert Pushed(lib, mapping, EMPTY, stream) == (t, out);
    assert RunChunks(lib, mapping, t, [stream][1..]) == (t, []);
    assert out + [] == out;
  }

  /** Such a stream exists as soon as one oversize event is rewritten: pushed whole it comes out
      rewritten, pushed in pieces it comes out as it is. */
  lemma {:induction false} OversizeFailureShows(lib: Library, mapping: Mapping, f: Text)
    requires IsFrame(f) && |f| > MAX_PENDING + 1 && RewriteFrame(lib, mapping, f) != f
    ensures Concat([f]) == f && Emitted(lib, mapping, [f]) == RewriteFrame(lib, mapping, f)
    ensures Concat(Overflowing(f, 0)) == f && Emitted(lib, mapping, Overflowing(f, 0)) == f
  {
    OneEvent(lib, mapping, f);
    OnePush(lib, mapping, f);
    OverflowingIsACut(f, 0);
    OverflowingCopies(lib, mapping, f, 0);
    MixedNone(lib, mapping, f);
  }

  lemma {:induction false} Cancel(a: Text, x: Text, y: Text, d: Text)
    requires a + x + d == a + y + d
    ensures x == y
  {
    var s, t := a + x + d, a + y + d;
    assert |x| == |y|;
    assert s[|a|..|a| + |x|] == x && t[|a|..|a| + |y|] == y;
  }

  /** When no complete event exceeds the buffer by more than its last byte, two cuts of one
      stream emit the same bytes: the whole stream split and rewritten. */
  lemma {:induction false} FragmentationIsInvisible(lib: Library, mapping: Mapping, cut: seq<Text>, other: seq<Text>)
    requires Concat(cut) == Concat(other)
    requires forall f :: f in Frames(Concat(cut)) ==> |f| <= MAX_PENDING + 1
    ensures Emitted(lib, mapping, cut) == Emitted(lib, mapping, other) == Whole(lib, mapping, Concat(cut))
  {
    PlainCutsAgree(lib, mapping, Concat(cut), cut);
    PlainCutsAgree(lib, mapping, Concat(cut), other);
  }
}
