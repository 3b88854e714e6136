/** Events and open tails in terms of the bytes that end an event, and the size of the buffer. */
module Delimiters {
  import opened Bytes
  import opened Json
  import opened ErrorMapping
  import opened Framing
  import opened SseMapper

  /** The last bytes are an empty line: LF LF or CR LF CR LF. */
  predicate EndsEvent(t: Text) {
    (|t| >= 2 && t[|t| - 2..] == [10, 10]) || (|t| >= 4 && t[|t| - 4..] == [13, 10, 13, 10])
  }

  /** A delimiter at `i` ends an event there, and an event that ends was delimited. */
  lemma {:induction false} DelimiterEnds(b: Text, i: nat)
    requires DelimiterAt(b, i) > 0
    ensures i + DelimiterAt(b, i) <= |b| && EndsEvent(b[..i + DelimiterAt(b, i)])
  {
    var t := b[..i + DelimiterAt(b, i)];
    if DelimiterAt(b, i) == 4 {
      assert t[|t| - 4..] == [13, 10, 13, 10];
    } else {
      assert t[|t| - 2..] == [10, 10];
    }
  }

  lemma {:induction false} EndIsDelimited(b: Text, n: nat) returns (i: nat)
    requires n <= |b| && EndsEvent(b[..n])
    ensures i < n && DelimiterAt(b, i) > 0 && i + DelimiterAt(b, i) == n
  {
    var t := b[..n];
    if |t| >= 2 && t[|t| - 2..] == [10, 10] {
      assert t[|t| - 2..][0] == b[n - 2] && t[|t| - 2..][1] == b[n - 1];
      i := n - 2;
    } else {
      var last := t[|t| - 4..];
      assert last[0] == b[n - 4] && last[1] == b[n - 3] && last[2] == b[n - 2] && last[3] == b[n - 1];
      i := n - 4;
    }
  }

  lemma {:induction false} FirstIsNotLater(b: Text, i: nat)
    requires i < |b| && DelimiterAt(b, i) > 0
    ensures FirstDelimiter(b, 0) <= i
  {
    var j := FirstDelimiter(b, 0);
    assert i < j ==> DelimiterAt(b, i) == 0;
  }

  /** Delimiters that start in order end in order. */
  lemma {:induction false} NoneInsideAnother(b: Text, i: nat, j: nat)
    requires i <= j && DelimiterAt(b, i) > 0 && DelimiterAt(b, j) > 0
    ensures i + DelimiterAt(b, i) <= j + DelimiterAt(b, j)
  {
  }

  /** No event ends before the first delimiter does. */
  lemma {:induction false} NoneEndsEarlier(b: Text, n: nat)
    requires !Open(b) && n < FrameEnd(b)
    ensures !EndsEvent(b[..n])
  {
    if EndsEvent(b[..n]) {
      var i := EndIsDelimited(b, n);
      FirstIsNotLater(b, i);
      NoneInsideAnother(b, FirstDelimiter(b, 0), i);
      assert false;
    }
  }

  /** A tail is open exactly if no event ends in it. */
  lemma {:induction false} OpenIff(b: Text)
    ensures Open(b) <==> forall n :: 0 <= n <= |b| ==> !EndsEvent(b[..n])
  {
    if Open(b) {
      assert NoneBetween(b, 0, |b|);
      forall n | 0 <= n <= |b| ensures !EndsEvent(b[..n]) {
        if EndsEvent(b[..n]) {
          var i := EndIsDelimited(b, n);
          assert false;
        }
      }
    } else {
      DelimiterEnds(b, FirstDelimiter(b, 0));
    }
  }

  /** An event is what ends like one and has no beginning that does: splitting is at the first
      empty line, whichever line feeds it is written with. */
  lemma {:induction false} IsFrameIff(f: Text)
    ensures IsFrame(f) <==> EndsEvent(f) && forall n :: 0 <= n < |f| ==> !EndsEvent(f[..n])
  {
    assert f[..|f|] == f;
    if Open(f) {
      OpenIff(f);
    } else {
      DelimiterEnds(f, FirstDelimiter(f, 0));
      forall n | 0 <= n < FrameEnd(f) ensures !EndsEvent(f[..n]) {
        NoneEndsEarlier(f, n);
      }
    }
  }

  /** One mebibyte of an unfinished event is held back; one byte more and the mapper gives way. */
  lemma {:induction false} OneMebibyteIsHeld(lib: Library, mapping: Mapping, tail: Text)
    requires forall n :: 0 <= n <= |tail| ==> !EndsEvent(tail[..n])
    ensures Pushed(lib, mapping, EMPTY, tail) == if |tail| <= 1_048_576 then (State(tail, false), []) else (State([], true), tail)
  {
    OpenIff(tail);
    assert [] + tail == tail;
  }
}
