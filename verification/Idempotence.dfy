/** Passing an already rewritten stream through the same rules changes nothing. */
module Idempotence {
  import opened Wrappers
  import opened Bytes
  import opened Json
  import opened ErrorMapping
  import opened Framing
  import opened SseMapper
  import opened Streams

  const EVENT_LINE: Text := Ascii("event: response.failed")
  const DATA_FIELD: Text := Ascii("data: ")

  lemma {:induction false} HeadLines()
    ensures HEAD == EVENT_LINE + [LF] + DATA_FIELD
    ensures LF !in EVENT_LINE && CR !in EVENT_LINE && LF !in DATA_FIELD && CR !in DATA_FIELD
    ensures !StartsWith(EVENT_LINE, DATA)
    ensures DATA_FIELD == DATA + [SPACE]
    ensures TERMINATOR == [LF, LF]
  {
    assert |HEAD| == 29 && |EVENT_LINE| == 22 && |DATA_FIELD| == 6;
    assert EVENT_LINE[0] == 'e' as int as byte && DATA[0] == 'd' as int as byte;
    FirstByte(EVENT_LINE, DATA);
  }

  lemma {:induction false} TwoLines(first: Text, second: Text)
    requires LF !in first && CR !in first && LF !in second && CR !in second
    ensures Lines(first + [LF] + (second + [LF] + [LF])) == [first, second, []]
  {
    FirstLine(first, second + [LF] + [LF]);
    FirstLine(second, [LF]);
    OneEmptyLine();
  }

  lemma {:induction false} OneEmptyLine()
    ensures Lines([LF]) == [[]]
  {
    FirstLine([], []);
    assert [] + [LF] + [] == [LF];
  }

  /** The lines of a failure event on the wire. */
  lemma {:induction false} SseLines(lib: Library, v: Json)
    requires PrintsBack(lib, v)
    ensures Lines(Sse(lib, v)) == [EVENT_LINE, DATA_FIELD + lib.show(v), []]
  {
    HeadLines();
    TwoLines(EVENT_LINE, DATA_FIELD + lib.show(v));
    WireForm(EVENT_LINE, DATA_FIELD, lib.show(v));
  }

  lemma {:induction false} WireForm(first: Text, prefix: Text, body: Text)
    ensures (first + [LF] + prefix) + body + [LF, LF] == first + [LF] + ((prefix + body) + [LF] + [LF])
  {
  }

  /** A line that is no data field gives nothing; one that is gives its value. */
  lemma {:induction false} OneDataField(first: Text, prefix: Text, body: Text)
    requires !StartsWith(first, DATA) && prefix == DATA + [SPACE]
    ensures DataFields([first, prefix + body, []]) == [body]
  {
    var second := prefix + body;
    assert second[..|DATA|] == DATA && second[|DATA|..] == [SPACE] + body;
    assert ([SPACE] + body)[..1] == [SPACE] && ([SPACE] + body)[1..] == body;
    assert [first, second, []][1..] == [second, []] && [second, []][1..] == [[]];
    assert DataFields([[]]) == [];
  }

  lemma {:induction false} SseData(lib: Library, v: Json)
    requires PrintsBack(lib, v)
    ensures DataOf(Sse(lib, v)) == lib.show(v)
  {
    SseLines(lib, v);
    HeadLines();
    OneDataField(EVENT_LINE, DATA_FIELD, lib.show(v));
  }

  /** A rewritten event, read back, is recognised and left alone. */
  lemma {:induction false} SseOfRewriteIsStable(lib: Library, mapping: Mapping, r: Retryable, failure: Json)
    requires Rewritable(failure) && PrintsBack(lib, Rewrite(r, failure))
    requires At(failure, TYPE) == String(RESPONSE_FAILED)
    ensures var f := Sse(lib, Rewrite(r, failure)); RewriteFrame(lib, mapping, f) == f
  {
    var v := Rewrite(r, failure);
    SseData(lib, v);
    RewriteTouchesOnlyTheClassification(r, failure, TYPE);
    KeysAreDistinct();
    assert CodeOf(v) == String(RETRYABLE_CODE);
  }

  /** Whatever is rewritten can be printed and read back. */
  lemma {:induction false} RewriteArises(lib: Library, mapping: Mapping, data: Text)
    requires Lawful(lib) && WellFormed(mapping)
    requires FailureIn(lib, data).Some? && MapFailure(mapping, 0, FailureIn(lib, data).value).Some?
    ensures var failure := FailureIn(lib, data).value;
            Rewritable(failure) && PrintsBack(lib, Rewrite(MapFailure(mapping, 0, failure).value, failure))
  {
    var failure := FailureIn(lib, data).value;
    MappedIsRewritable(mapping, 0, failure);
    MappedMessageIsText(mapping, 0, failure);
    assert lib.parse(data) == Some(failure) || FailureFromMessage(lib, data) == failure;
    assert Arises(lib, failure);
  }

  lemma {:induction false} RewriteIsStable(lib: Library, mapping: Mapping, frame: Text)
    requires Lawful(lib) && WellFormed(mapping)
    ensures RewriteFrame(lib, mapping, RewriteFrame(lib, mapping, frame)) == RewriteFrame(lib, mapping, frame)
  {
    var failure := FailureIn(lib, DataOf(frame));
    if Utf8(frame) && failure.Some? && MapFailure(mapping, 0, failure.value).Some? {
      RewriteArises(lib, mapping, DataOf(frame));
      SseOfRewriteIsStable(lib, mapping, MapFailure(mapping, 0, failure.value).value, failure.value);
    }
  }

  /** Two lines and an empty one are one event. */
  lemma {:induction false} TwoLinesAreAFrame(first: Text, second: Text)
    requires LF !in first && CR !in first && LF !in second && CR !in second && second != []
    ensures IsFrame(first + [LF] + (second + [LF] + [LF]))
  {
    var f := first + [LF] + (second + [LF] + [LF]);
    var n := |first| + 1 + |second|;
    assert f[n] == LF && f[n + 1] == LF;
    assert forall i :: 0 <= i < |first| ==> f[i] == first[i] && first[i] in first;
    assert forall j :: 0 <= j < |second| ==> f[|first| + 1 + j] == second[j] && second[j] in second;
    assert f[|first|] == LF && f[|first| + 1] == second[0];
    forall i | 0 <= i < n ensures DelimiterAt(f, i) == 0 {
      if i > |first| {
        assert f[i] == second[i - |first| - 1];
      }
    }
    FirstIs(f, 0, n);
  }

  /** A failure event on the wire is one event: no delimiter inside. */
  lemma {:induction false} SseIsFrame(lib: Library, v: Json)
    requires PrintsBack(lib, v)
    ensures IsFrame(Sse(lib, v))
  {
    HeadLines();
    TwoLinesAreAFrame(EVENT_LINE, DATA_FIELD + lib.show(v));
    WireForm(EVENT_LINE, DATA_FIELD, lib.show(v));
  }

  lemma {:induction false} RewriteKeepsFrame(lib: Library, mapping: Mapping, frame: Text)
    requires Lawful(lib) && WellFormed(mapping) && IsFrame(frame)
    ensures IsFrame(RewriteFrame(lib, mapping, frame))
  {
    if RewriteFrame(lib, mapping, frame) != frame {
      var failure := FailureIn(lib, DataOf(frame)).value;
      RewriteArises(lib, mapping, DataOf(frame));
      SseIsFrame(lib, Rewrite(MapFailure(mapping, 0, failure).value, failure));
    }
  }

  // ----- Streams -----

  function RewriteEach(lib: Library, mapping: Mapping, frames: seq<Text>): (r: seq<Text>)
    ensures |r| == |frames|
    ensures forall i :: 0 <= i < |r| ==> r[i] == RewriteFrame(lib, mapping, frames[i])
  {
    if frames == [] then []
    else [RewriteFrame(lib, mapping, frames[0])] + RewriteEach(lib, mapping, frames[1..])
  }

  lemma {:induction false} RewrittenIsConcat(lib: Library, mapping: Mapping, frames: seq<Text>)
    ensures Rewritten(lib, mapping, frames) == Concat(RewriteEach(lib, mapping, frames))
  {
    if frames != [] {
      RewrittenIsConcat(lib, mapping, frames[1..]);
    }
  }

  /** Events that rewriting leaves alone are emitted as they are. */
  lemma {:induction false} StableFrames(lib: Library, mapping: Mapping, frames: seq<Text>)
    requires forall f :: f in frames ==> RewriteFrame(lib, mapping, f) == f
    ensures Rewritten(lib, mapping, frames) == Concat(frames)
  {
    if frames != [] {
      StableFrames(lib, mapping, frames[1..]);
    }
  }

  /** A rewritten stream splits back into the rewritten events and the old tail. */
  lemma {:induction false} WholeSplitsBack(lib: Library, mapping: Mapping, stream: Text)
    requires Lawful(lib) && WellFormed(mapping)
    ensures Frames(Whole(lib, mapping, stream)) == RewriteEach(lib, mapping, Frames(stream))
    ensures Tail(Whole(lib, mapping, stream)) == Tail(stream)
  {
    var fs := RewriteEach(lib, mapping, Frames(stream));
    FramesAreFrames(stream);
    forall f | f in fs ensures IsFrame(f) {
      var i :| 0 <= i < |fs| && fs[i] == f;
      assert Frames(stream)[i] in Frames(stream);
      RewriteKeepsFrame(lib, mapping, Frames(stream)[i]);
    }
    FramesAndTail(stream);
    RewrittenIsConcat(lib, mapping, Frames(stream));
    FramesOfFrames(fs, Tail(stream));
  }

  /** So does a stream of which only the first events were rewritten. */
  lemma {:induction false} MixedSplitsBack(lib: Library, mapping: Mapping, stream: Text, k: nat)
    requires Lawful(lib) && WellFormed(mapping) && k <= |Frames(stream)|
    ensures Frames(Mixed(lib, mapping, stream, k)) == RewriteEach(lib, mapping, Frames(stream)[..k]) + Frames(stream)[k..]
    ensures Tail(Mixed(lib, mapping, stream, k)) == Tail(stream)
  {
    var done, rest := RewriteEach(lib, mapping, Frames(stream)[..k]), Frames(stream)[k..];
    FramesAreFrames(stream);
    forall f | f in done + rest ensures IsFrame(f) {
      if f in done {
        var i :| 0 <= i < |done| && done[i] == f;
        assert Frames(stream)[..k][i] in Frames(stream);
        RewriteKeepsFrame(lib, mapping, Frames(stream)[i]);
      }
    }
    FramesAndTail(stream);
    RewrittenIsConcat(lib, mapping, Frames(stream)[..k]);
    ConcatAppend(done, rest);
    FramesOfFrames(done + rest, Tail(stream));
  }

  /** Whatever the mapper emits for a stream, bypass included, breaks off where the stream does. */
  lemma {:induction false} EmittedBreaksOffAlike(lib: Library, mapping: Mapping, chunks: seq<Text>)
    requires Lawful(lib) && WellFormed(mapping)
    ensures Tail(Emitted(lib, mapping, chunks)) == Tail(Concat(chunks))
  {
    var stream := Concat(chunks);
    Conservation(lib, mapping, EMPTY, chunks);
    assert [] + stream == stream;
    var (s, out) := RunChunks(lib, mapping, EMPTY, chunks);
    if s.bypass {
      var k :| 0 <= k <= |Frames(stream)| && Oversize(stream, k) && out == Mixed(lib, mapping, stream, k);
      assert out + [] == out;
      MixedSplitsBack(lib, mapping, stream, k);
    } else {
      WholeSplitsBack(lib, mapping, stream);
    }
  }

  lemma {:induction false} EachIsStable(lib: Library, mapping: Mapping, stream: Text)
    requires Lawful(lib) && WellFormed(mapping)
    ensures forall f :: f in RewriteEach(lib, mapping, Frames(stream)) ==> RewriteFrame(lib, mapping, f) == f
  {
    var fs := RewriteEach(lib, mapping, Frames(stream));
    forall f | f in fs ensures RewriteFrame(lib, mapping, f) == f {
      var i :| 0 <= i < |fs| && fs[i] == f;
      RewriteIsStable(lib, mapping, Frames(stream)[i]);
    }
  }

  /** Rewriting a stream twice is rewriting it once. */
  lemma {:induction false} WholeIsIdempotent(lib: Library, mapping: Mapping, stream: Text)
    requires Lawful(lib) && WellFormed(mapping)
    ensures Whole(lib, mapping, Whole(lib, mapping, stream)) == Whole(lib, mapping, stream)
  {
    WholeSplitsBack(lib, mapping, stream);
    EachIsStable(lib, mapping, stream);
    StableFrames(lib, mapping, RewriteEach(lib, mapping, Frames(stream)));
    RewrittenIsConcat(lib, mapping, Frames(stream));
  }

  /** A second mapper with the same rules returns its input unchanged, however that input is cut
      and even if its events are too long for the buffer. */
  lemma {:induction false} SecondPassChangesNothing(lib: Library, mapping: Mapping, stream: Text, again: seq<Text>)
    requires Lawful(lib) && WellFormed(mapping)
    requires Concat(again) == Whole(lib, mapping, stream)
    ensures Emitted(lib, mapping, again) == Whole(lib, mapping, stream)
  {
    var out, fs := Whole(lib, mapping, stream), RewriteEach(lib, mapping, Frames(stream));
    WholeSplitsBack(lib, mapping, stream);
    EachIsStable(lib, mapping, stream);
    forall k | 0 <= k < |Frames(out)| && |Frames(out)[k]| > MAX_PENDING + 1
      ensures Concat(Frames(out)[k..]) == Rewritten(lib, mapping, Frames(out)[k..])
    {
      StableFrames(lib, mapping, fs[k..]);
    }
    PlainCutsAgree(lib, mapping, out, again);
    WholeIsIdempotent(lib, mapping, stream);
  }
}
