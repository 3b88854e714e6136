/** The incremental rewriter of an event stream, against its specification on whole streams. */
module SseMapper {
  import opened Wrappers
  import opened Bytes
  import opened Json
  import opened ErrorMapping
  import opened Framing

  const MAX_PENDING: nat := 1_048_576
  const DATA: Text := Ascii("data:")
  const EVENT: Text := Ascii("event:")
  const DONE: Text := Ascii("[DONE]")
  const HEAD: Text := Ascii("event: response.failed\ndata: ")
  const TERMINATOR: Text := Ascii("\n\n")

  /** A failure event on the wire. */
  function Sse(lib: Library, event: Json): Text {
    HEAD + lib.show(event) + TERMINATOR
  }

  /** The values of the data fields among the lines, one optional leading space dropped. */
  function DataFields(lines: seq<Text>): seq<Text> {
    if lines == [] then []
    else
      var field := StripPrefix(lines[0], DATA);
      if field.None? then DataFields(lines[1..])
      else
        var space := StripPrefix(field.value, [SPACE]);
        [if space.Some? then space.value else field.value] + DataFields(lines[1..])
  }

  function DataOf(frame: Text): Text {
    Join(DataFields(Lines(frame)), LF)
  }

  /** The failure event that a data payload stands for, if any. */
  function FailureIn(lib: Library, data: Text): Option<Json> {
    var parsed := lib.parse(data);
    if parsed.None? then None
    else if At(parsed.value, TYPE) == String(RESPONSE_FAILED) then parsed
    else if At(parsed.value, TYPE) == String(ERROR) && At(parsed.value, ERROR).Object? then
      Some(FailureFromMessage(lib, data))
    else None
  }

  lemma {:induction false} MappedIsRewritable(mapping: Mapping, status: nat, failure: Json)
    requires MapFailure(mapping, status, failure).Some?
    ensures Rewritable(failure)
  {
  }

  function RewriteFrame(lib: Library, mapping: Mapping, frame: Text): Text {
    if !Utf8(frame) then frame
    else
      var failure := FailureIn(lib, DataOf(frame));
      if failure.None? then frame
      else
        var mapped := MapFailure(mapping, 0, failure.value);
        if mapped.None? then frame
        else
          MappedIsRewritable(mapping, 0, failure.value);
          Sse(lib, Rewrite(mapped.value, failure.value))
  }

  /** The bytes of a sequence of events, each rewritten. */
  function Rewritten(lib: Library, mapping: Mapping, frames: seq<Text>): Text {
    if frames == [] then []
    else RewriteFrame(lib, mapping, frames[0]) + Rewritten(lib, mapping, frames[1..])
  }

  lemma {:induction false} RewrittenAppend(lib: Library, mapping: Mapping, a: seq<Text>, b: seq<Text>)
    ensures Rewritten(lib, mapping, a + b) == Rewritten(lib, mapping, a) + Rewritten(lib, mapping, b)
  {
    if a == [] {
      assert a + b == b;
    } else {
      RewrittenAppend(lib, mapping, a[1..], b);
      assert (a + b)[0] == a[0] && (a + b)[1..] == a[1..] + b;
      Associative(RewriteFrame(lib, mapping, a[0]), Rewritten(lib, mapping, a[1..]), Rewritten(lib, mapping, b));
    }
  }

  // ----- Specification -----

  datatype State = State(pending: Text, bypass: bool)

  const EMPTY: State := State([], false)

  function Pushed(lib: Library, mapping: Mapping, s: State, bytes: Text): (State, Text) {
    if s.bypass then (s, bytes)
    else
      var b := s.pending + bytes;
      var out := Rewritten(lib, mapping, Frames(b));
      if |Tail(b)| > MAX_PENDING then (State([], true), out + Tail(b))
      else (State(Tail(b), false), out)
  }

  /** A host record: one line of an event, handed over without its line feed. */
  predicate OneLine(bytes: Text) {
    LF !in bytes && CR !in bytes
  }

  predicate ValidData(lib: Library, data: Text) {
    lib.trim(if Utf8(data) then data else []) == DONE || lib.parse(data).Some?
  }

  /** What a host chunk is pushed as. */
  function Reframed(lib: Library, bytes: Text): Text {
    if !OneLine(bytes) then bytes
    else if StartsWith(bytes, DATA) then
      if ValidData(lib, bytes[|DATA|..]) then bytes + TERMINATOR else bytes
    else if StartsWith(bytes, EVENT) then bytes + [LF]
    else bytes
  }

  // ----- The object -----

  class SseMapper {
    const lib: Library
    const mapping: Mapping
    var pending: Text
    var bypass: bool
    var scan: nat

    constructor (lib: Library, mapping: Mapping)
      ensures Valid() && View() == EMPTY
      ensures this.lib == lib && this.mapping == mapping
    {
      this.lib := lib;
      this.mapping := mapping;
      pending := [];
      bypass := false;
      scan := 0;
    }

    function View(): State
      reads this
    {
      State(pending, bypass)
    }

    /** The buffer is within bounds and open, and the cursor skips nothing that could matter. */
    ghost predicate Valid()
      reads this
    {
      && |pending| <= MAX_PENDING
      && Open(pending)
      && (bypass ==> pending == [])
      && (!bypass ==> scan == 0 || scan + 3 <= |pending|)
    }

    method Push(bytes: Text) returns (output: Text)
      requires Valid()
      modifies this
      ensures Valid()
      ensures (View(), output) == Pushed(lib, mapping, old(View()), bytes)
    {
      if bypass {
        return bytes;
      }
      LastThreeAreEnough(pending, bytes, scan);
      pending := pending + bytes;
      var start: nat;
      output, start := RewriteComplete();
      FramesAndTail(pending);
      pending := pending[start..];
      scan := if |pending| >= 3 then |pending| - 3 else 0;
      if |pending| > MAX_PENDING {
        bypass := true;
        output := output + pending;
        pending := [];
      }
    }

    /** The loop of push: rewrite each complete event from the resume cursor on. */
    method RewriteComplete() returns (output: Text, start: nat)
      requires scan <= |pending| && NoneBetween(pending, 0, scan)
      ensures output == Rewritten(lib, mapping, Frames(pending))
      ensures start <= |pending| && pending[start..] == Tail(pending)
    {
      output, start := [], 0;
      var cursor, bytes := scan, pending;
      ProgressStarts(lib, mapping, bytes);
      while cursor < |bytes|
        invariant start <= cursor <= |bytes| && NoneBetween(bytes, start, cursor)
        invariant Progress(lib, mapping, bytes, start, output)
      {
        var delimiter := DelimiterAt(bytes, cursor);
        if delimiter == 0 {
          cursor := cursor + 1;
        } else {
          var end := cursor + delimiter;
          ProgressContinues(lib, mapping, bytes, start, cursor, end, output);
          output := output + RewriteFrame(lib, mapping, bytes[start..end]);
          start, cursor := end, end;
        }
      }
      ProgressEnds(lib, mapping, bytes, start, output);
    }

    method PushHostChunk(bytes: Text) returns (output: Text)
      requires Valid()
      modifies this
      ensures Valid()
      ensures (View(), output) == Pushed(lib, mapping, old(View()), Reframed(lib, bytes))
    {
      if LF !in bytes && CR !in bytes {
        if StartsWith(bytes, DATA) {
          var data := bytes[|DATA|..];
          var text := lib.trim(if Utf8(data) then data else []);
          if text == DONE || lib.parse(data).Some? {
            output := Push(bytes + TERMINATOR);
            return;
          }
        } else if StartsWith(bytes, EVENT) {
          output := Push(bytes + [LF]);
          return;
        }
      }
      output := Push(bytes);
    }

    method Finish() returns (output: Text)
      requires Valid()
      modifies this
      ensures Valid()
      ensures output == old(pending) && View() == State([], old(bypass))
    {
      scan := 0;
      output := pending;
      pending := [];
    }
  }

  // ----- Lemmas for the loop -----

  lemma {:induction false} ShiftedDelimiter(b: Text, start: nat, i: nat)
    requires start <= |b|
    ensures DelimiterAt(b[start..], i) == DelimiterAt(b, start + i)
  {
  }

  lemma {:induction false} FirstOfRest(b: Text, start: nat, cursor: nat)
    requires start <= cursor < |b| && NoneBetween(b, start, cursor) && DelimiterAt(b, cursor) > 0
    ensures !Open(b[start..]) && start + FrameEnd(b[start..]) == cursor + DelimiterAt(b, cursor)
  {
    ShiftedDelimiter(b, start, cursor - start);
    forall i | 0 <= i < cursor - start ensures DelimiterAt(b[start..], i) == 0 {
      ShiftedDelimiter(b, start, i);
    }
    FirstIs(b[start..], 0, cursor - start);
  }

  lemma {:induction false} RestSplits(b: Text, start: nat, cursor: nat, end: nat)
    requires start <= cursor < |b| && NoneBetween(b, start, cursor) && DelimiterAt(b, cursor) > 0
    requires end == cursor + DelimiterAt(b, cursor)
    ensures start < end <= |b| && !Open(b[start..])
    ensures b[start..][..FrameEnd(b[start..])] == b[start..end]
    ensures b[start..][FrameEnd(b[start..])..] == b[end..]
  {
    FirstOfRest(b, start, cursor);
  }

  lemma {:induction false} FirstFrame(rest: Text, first: Text, others: Text)
    requires !Open(rest) && rest[..FrameEnd(rest)] == first && rest[FrameEnd(rest)..] == others
    ensures Frames(rest) == [first] + Frames(others) && Tail(rest) == Tail(others)
  {
  }

  /** The cursor meets the end of the first event of what is left. */
  lemma {:induction false} FrameFound(b: Text, start: nat, cursor: nat, end: nat)
    requires start <= cursor < |b| && NoneBetween(b, start, cursor) && DelimiterAt(b, cursor) > 0
    requires end == cursor + DelimiterAt(b, cursor)
    ensures start < end <= |b|
    ensures Frames(b[start..]) == [b[start..end]] + Frames(b[end..])
    ensures Tail(b[start..]) == Tail(b[end..])
  {
    RestSplits(b, start, cursor, end);
    FirstFrame(b[start..], b[start..end], b[end..]);
  }

  lemma {:induction false} NoneLeft(b: Text, start: nat)
    requires start <= |b| && NoneBetween(b, start, |b|)
    ensures Open(b[start..])
  {
    forall i | 0 <= i < |b| - start ensures DelimiterAt(b[start..], i) == 0 {
      ShiftedDelimiter(b, start, i);
    }
    FirstIs(b[start..], 0, |b| - start);
  }

  /** The output so far and what is left of `b` together give the whole rewrite. */
  ghost predicate Progress(lib: Library, mapping: Mapping, b: Text, start: nat, output: Text)
    requires start <= |b|
  {
    && output + Rewritten(lib, mapping, Frames(b[start..])) == Rewritten(lib, mapping, Frames(b))
    && Tail(b[start..]) == Tail(b)
  }

  lemma {:induction false} ProgressStarts(lib: Library, mapping: Mapping, b: Text)
    ensures Progress(lib, mapping, b, 0, [])
  {
    assert b[0..] == b;
  }

  lemma {:induction false} ProgressContinues(lib: Library, mapping: Mapping, b: Text, start: nat, cursor: nat, end: nat, output: Text)
    requires start <= cursor < end && cursor < |b| && NoneBetween(b, start, cursor) && end == cursor + DelimiterAt(b, cursor)
    requires Progress(lib, mapping, b, start, output)
    ensures end <= |b| && Progress(lib, mapping, b, end, output + RewriteFrame(lib, mapping, b[start..end]))
  {
    FrameFound(b, start, cursor, end);
    OneFrameMore(lib, mapping, b[start..end], Frames(b[end..]), output, Rewritten(lib, mapping, Frames(b)));
  }

  lemma {:induction false} OneFrameMore(lib: Library, mapping: Mapping, frame: Text, rest: seq<Text>, output: Text, all: Text)
    requires output + Rewritten(lib, mapping, [frame] + rest) == all
    ensures (output + RewriteFrame(lib, mapping, frame)) + Rewritten(lib, mapping, rest) == all
  {
    RewrittenFirst(lib, mapping, frame, rest);
    Associative(output, RewriteFrame(lib, mapping, frame), Rewritten(lib, mapping, rest));
  }

  lemma {:induction false} RewrittenFirst(lib: Library, mapping: Mapping, frame: Text, rest: seq<Text>)
    ensures Rewritten(lib, mapping, [frame] + rest) == RewriteFrame(lib, mapping, frame) + Rewritten(lib, mapping, rest)
  {
    assert ([frame] + rest)[1..] == rest;
  }

  lemma {:induction false} ProgressEnds(lib: Library, mapping: Mapping, b: Text, start: nat, output: Text)
    requires start <= |b| && NoneBetween(b, start, |b|) && Progress(lib, mapping, b, start, output)
    ensures output == Rewritten(lib, mapping, Frames(b)) && b[start..] == Tail(b)
  {
    NoneLeft(b, start);
    assert output + [] == output;
  }
}
