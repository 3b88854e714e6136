/** Splitting a byte stream into server-sent events at LF LF and CR LF CR LF, a fragment of
    section 9.2.5 of the WHATWG HTML Living Standard. */
module Framing {
  import opened Bytes

  /** The length of the delimiter that starts at `i`, or zero. */
  function DelimiterAt(b: Text, i: int): nat {
    if i < 0 then 0
    else if i + 4 <= |b| && b[i] == CR && b[i + 1] == LF && b[i + 2] == CR && b[i + 3] == LF then 4
    else if i + 2 <= |b| && b[i] == LF && b[i + 1] == LF then 2
    else 0
  }

  predicate NoneBetween(b: Text, from: int, to: int) {
    forall i :: from <= i < to ==> DelimiterAt(b, i) == 0
  }

  /** Where the first delimiter at or after `from` starts; the length when there is none. */
  function FirstDelimiter(b: Text, from: nat): (i: nat)
    requires from <= |b|
    ensures from <= i <= |b|
    ensures NoneBetween(b, from, i)
    ensures i < |b| ==> DelimiterAt(b, i) > 0
    decreases |b| - from
  {
    if from == |b| || DelimiterAt(b, from) > 0 then from else FirstDelimiter(b, from + 1)
  }

  /** No complete delimiter in sight. */
  predicate Open(b: Text) {
    FirstDelimiter(b, 0) == |b|
  }

  /** Where the first event ends. */
  function FrameEnd(b: Text): nat
    requires !Open(b)
    ensures 2 <= FrameEnd(b) <= |b|
  {
    FirstDelimiter(b, 0) + DelimiterAt(b, FirstDelimiter(b, 0))
  }

  /** The complete events of a stream, delimiters included. */
  function Frames(b: Text): seq<Text>
    decreases |b|
  {
    if Open(b) then [] else [b[..FrameEnd(b)]] + Frames(b[FrameEnd(b)..])
  }

  /** What follows the last complete event. */
  function Tail(b: Text): Text
    decreases |b|
  {
    if Open(b) then b else Tail(b[FrameEnd(b)..])
  }

  lemma {:induction false} FirstIs(b: Text, from: nat, i: nat)
    requires from <= i <= |b| && NoneBetween(b, from, i) && (i < |b| ==> DelimiterAt(b, i) > 0)
    ensures FirstDelimiter(b, from) == i
  {
    var j := FirstDelimiter(b, from);
    assert from <= i < j ==> DelimiterAt(b, i) == 0;
    assert from <= j < i ==> DelimiterAt(b, j) == 0;
  }

  /** Nothing is lost: the events and the tail are the stream. */
  lemma {:induction false} FramesAndTail(b: Text)
    ensures Concat(Frames(b)) + Tail(b) == b
    ensures Open(Tail(b))
    decreases |b|
  {
    if !Open(b) {
      FramesAndTail(b[FrameEnd(b)..]);
      assert b == b[..FrameEnd(b)] + b[FrameEnd(b)..];
    }
  }

  /** A delimiter seen in `x` is still the first one when more bytes arrive. */
  lemma {:induction false} FirstDelimiterStays(x: Text, y: Text)
    requires !Open(x)
    ensures !Open(x + y) && FirstDelimiter(x + y, 0) == FirstDelimiter(x, 0) && FrameEnd(x + y) == FrameEnd(x)
  {
    var i := FirstDelimiter(x, 0);
    assert DelimiterAt(x + y, i) == DelimiterAt(x, i);
    forall j | 0 <= j < i ensures DelimiterAt(x + y, j) == 0 {
      assert DelimiterAt(x, j) == 0;
    }
    FirstIs(x + y, 0, i);
  }

  /** Splitting in two steps is splitting once: only the open tail meets the new bytes. */
  lemma {:induction false} SplitInSteps(x: Text, y: Text)
    ensures Frames(x + y) == Frames(x) + Frames(Tail(x) + y)
    ensures Tail(x + y) == Tail(Tail(x) + y)
    decreases |x|
  {
    if !Open(x) {
      FirstDelimiterStays(x, y);
      var e := FrameEnd(x);
      assert (x + y)[..e] == x[..e];
      assert (x + y)[e..] == x[e..] + y;
      SplitInSteps(x[e..], y);
    }
  }

  /** An event: its only delimiter ends it. */
  predicate IsFrame(f: Text) {
    !Open(f) && FrameEnd(f) == |f|
  }

  lemma {:induction false} FramesAreFrames(b: Text)
    ensures forall f :: f in Frames(b) ==> IsFrame(f)
    decreases |b|
  {
    if !Open(b) {
      var e, i := FrameEnd(b), FirstDelimiter(b, 0);
      var f := b[..e];
      assert DelimiterAt(f, i) == DelimiterAt(b, i);
      forall j | 0 <= j < i ensures DelimiterAt(f, j) == 0 {
        assert DelimiterAt(b, j) == 0;
      }
      FirstIs(f, 0, i);
      FramesAreFrames(b[e..]);
    }
  }

  /** Events put one after another split back into themselves. */
  lemma {:induction false} FramesOfFrames(fs: seq<Text>, tail: Text)
    requires forall f :: f in fs ==> IsFrame(f)
    requires Open(tail)
    ensures Frames(Concat(fs) + tail) == fs
    ensures Tail(Concat(fs) + tail) == tail
  {
    if fs == [] {
      assert Concat(fs) + tail == tail;
    } else {
      var f, rest := fs[0], Concat(fs[1..]) + tail;
      assert f in fs && Concat(fs) + tail == f + rest;
      FirstDelimiterStays(f, rest);
      assert (f + rest)[..|f|] == f && (f + rest)[|f|..] == rest;
      FramesOfFrames(fs[1..], tail);
    }
  }

  lemma {:induction false} FrameIsOneEvent(f: Text)
    requires IsFrame(f)
    ensures Frames(f) == [f] && Tail(f) == []
  {
    FramesOfFrames([f], []);
    assert Concat([f]) + [] == f;
  }

  /** A stream without a complete delimiter is shorter than the event it grows into. */
  lemma {:induction false} OpenIsShort(x: Text, y: Text)
    requires Open(x) && !Open(x + y)
    ensures |x| < FrameEnd(x + y)
  {
    var i := FirstDelimiter(x + y, 0);
    assert NoneBetween(x, 0, |x|);
    assert i + DelimiterAt(x + y, i) <= |x| ==> DelimiterAt(x, i) == DelimiterAt(x + y, i);
  }

  /** Cutting the last byte off an event leaves it open. */
  lemma {:induction false} CutFrameIsOpen(f: Text)
    requires IsFrame(f)
    ensures Open(f[..|f| - 1])
  {
    var g := f[..|f| - 1];
    assert g + [f[|f| - 1]] == f;
    if !Open(g) {
      FirstDelimiterStays(g, [f[|f| - 1]]);
    }
  }

  /** After an open prefix it is enough to look again from its last three bytes. */
  lemma {:induction false} LastThreeAreEnough(x: Text, y: Text, from: nat)
    requires Open(x) && (from == 0 || from + 3 <= |x|)
    ensures NoneBetween(x + y, 0, from)
    ensures FirstDelimiter(x + y, 0) == FirstDelimiter(x + y, from)
  {
    forall j | 0 <= j < from ensures DelimiterAt(x + y, j) == 0 {
      assert NoneBetween(x, 0, |x|);
      assert DelimiterAt(x, j) == DelimiterAt(x + y, j);
    }
    FirstIs(x + y, 0, FirstDelimiter(x + y, from));
  }
}
