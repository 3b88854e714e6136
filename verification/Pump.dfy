/** The worker's read loop: host reads in, rewritten stream out. */
module Pump {
  import opened Wrappers
  import opened Bytes
  import opened Json
  import opened ErrorMapping
  import opened Framing
  import opened SseMapper
  import opened Streams
  import Idempotence

  datatype Payload = Absent | Undecodable | Decoded(bytes: Text)

  /** What the host answers to a read: a fault, or a chunk with an error message (empty for none). */
  datatype Read = Fault(message: Text) | Chunk(error: Text, payload: Payload, done: bool)

  /** How the loop ends; `Refused` is a downstream emit that failed. */
  datatype Ending = Stopped | Completed | Failed(message: Text) | Refused

  const BAD_ENCODING: Text := Ascii("Invalid host stream encoding")

  /** The downstream stream: the payloads the host took, and how many more it will take. */
  class Downstream {
    var taken: seq<Text>
    var accepts: nat

    constructor (accepts: nat)
      ensures taken == [] && this.accepts == accepts
    {
      taken, this.accepts := [], accepts;
    }

    function Bytes(): Text
      reads this
    {
      Concat(taken)
    }

    /** Empty payloads are not sent at all. */
    method Emit(payload: Text) returns (ok: bool)
      modifies this
      ensures ok <==> payload == [] || old(accepts) > 0
      ensures Bytes() == old(Bytes()) + if ok then payload else []
      ensures taken == old(taken) + if ok && payload != [] then [payload] else []
      ensures |taken| + accepts == |old(taken)| + old(accepts)
    {
      if payload == [] {
        return true;
      }
      if accepts == 0 {
        return false;
      }
      ConcatAppend(taken, [payload]);
      taken, accepts := taken + [payload], accepts - 1;
      return true;
    }
  }

  // ----- Specification -----

  predicate Ends(r: Read) {
    r.Fault? || r.error != [] || r.payload.Undecodable? || r.done
  }

  /** The first read that ends the loop; their number when none does. */
  function EndsAt(answers: seq<Read>): (n: nat)
    ensures n <= |answers|
    ensures n < |answers| ==> Ends(answers[n])
    ensures forall i :: 0 <= i < n ==> !Ends(answers[i])
  {
    if answers == [] || Ends(answers[0]) then 0 else 1 + EndsAt(answers[1..])
  }

  /** The bytes that a read pushes into the mapper. */
  function Pieces(lib: Library, r: Read): seq<Text> {
    if r.Chunk? && r.error == [] && r.payload.Decoded? then [Reframed(lib, r.payload.bytes)] else []
  }

  function Heard(lib: Library, answers: seq<Read>): seq<Text> {
    if answers == [] then [] else Heard(lib, answers[..|answers| - 1]) + Pieces(lib, answers[|answers| - 1])
  }

  /** What the mapper has emitted for the pieces, its buffer not flushed. */
  function Unflushed(lib: Library, mapping: Mapping, pieces: seq<Text>): Text {
    RunChunks(lib, mapping, EMPTY, pieces).1
  }

  /** The terminal failure is matched without an HTTP status. */
  function MappedTerminal(lib: Library, mapping: Mapping, message: Text): Option<Retryable> {
    MapFailure(mapping, 0, FailureFromMessage(lib, message))
  }

  /** What a terminal failure adds to the stream. */
  function TerminalEvent(lib: Library, mapping: Mapping, message: Text): Text {
    if MappedTerminal(lib, mapping, message).None? then []
    else
      MappedIsRewritable(mapping, 0, FailureFromMessage(lib, message));
      Sse(lib, Rewrite(MappedTerminal(lib, mapping, message).value, FailureFromMessage(lib, message)))
  }

  /** The downstream bytes and the ending, when the flag is seen up after `answers` and downstream
      takes everything. */
  function Delivered(lib: Library, mapping: Mapping, answers: seq<Read>): (Text, Ending) {
    var n := EndsAt(answers);
    if n == |answers| then (Unflushed(lib, mapping, Heard(lib, answers)), Stopped)
    else
      var r, pieces := answers[n], Heard(lib, answers[..n + 1]);
      if r.Fault? then (Unflushed(lib, mapping, pieces), Failed(r.message))
      else if r.error != [] then
        (Emitted(lib, mapping, pieces) + TerminalEvent(lib, mapping, r.error),
         if MappedTerminal(lib, mapping, r.error).Some? then Completed else Failed(r.error))
      else if r.payload.Undecodable? then (Unflushed(lib, mapping, pieces), Failed(BAD_ENCODING))
      else (Emitted(lib, mapping, pieces), Completed)
  }

  // ----- The loop -----

  /** One iteration: the mapper's state, the bytes for downstream, and the ending if it is the last. */
  function Answered(lib: Library, mapping: Mapping, s: State, r: Read): (State, Text, Option<Ending>) {
    if r.Fault? then (s, [], Some(Failed(r.message)))
    else if r.error != [] then
      (s, s.pending + TerminalEvent(lib, mapping, r.error),
       Some(if MappedTerminal(lib, mapping, r.error).Some? then Completed else Failed(r.error)))
    else if r.payload.Undecodable? then (s, [], Some(Failed(BAD_ENCODING)))
    else
      var (t, out) := if r.payload.Decoded? then Pushed(lib, mapping, s, Reframed(lib, r.payload.bytes)) else (s, []);
      if r.done then (t, out + t.pending, Some(Completed)) else (t, out, None)
  }

  function Iterated(lib: Library, mapping: Mapping, s: State, answers: seq<Read>): (Text, Ending)
    decreases |answers|
  {
    if answers == [] then ([], Stopped)
    else
      var (t, out, ending) := Answered(lib, mapping, s, answers[0]);
      if ending.Some? then (out, ending.value)
      else
        var (more, last) := Iterated(lib, mapping, t, answers[1..]);
        (out + more, last)
  }

  /** `now` is `before` and then all of `bytes`, or the part that was sent before a refusal. */
  predicate SentUpTo(before: Text, now: Text, bytes: Text, refused: bool) {
    if refused then before <= now <= before + bytes else now == before + bytes
  }

  lemma {:induction false} SentAfter(before: Text, first: Text, now: Text, bytes: Text, refused: bool)
    requires SentUpTo(before + first, now, bytes, refused)
    ensures SentUpTo(before, now, first + bytes, refused)
  {
    Associative(before, first, bytes);
  }

  /** What was sent first and what was sent last make up the total, or a part of it. */
  lemma {:induction false} SentInAll(before: Text, first: Text, now: Text, last: Text, total: Text, refused: bool)
    requires SentUpTo(before + first, now, last, refused)
    requires if refused then first + last <= total else first + last == total
    ensures SentUpTo(before, now, total, refused)
  {
    SentAfter(before, first, now, last, refused);
    assert before + total == before + (first + last) + total[|first + last|..];
  }

  /** Emit two payloads, the second only if the first was taken. */
  method EmitBoth(downstream: Downstream, first: Text, second: Text) returns (ok: bool)
    modifies downstream
    ensures |downstream.taken| + downstream.accepts == |old(downstream.taken)| + old(downstream.accepts)
    ensures !ok ==> downstream.accepts == 0
    ensures SentUpTo(old(downstream.Bytes()), downstream.Bytes(), first + second, !ok)
  {
    ghost var before := downstream.Bytes();
    ok := downstream.Emit(first);
    if ok {
      ok := downstream.Emit(second);
      SentAfter(before, first, downstream.Bytes(), second, !ok);
    }
  }

  method Answer(mapper: SseMapper, downstream: Downstream, r: Read) returns (ending: Option<Ending>)
    requires mapper.Valid()
    modifies mapper, downstream
    ensures mapper.Valid()
    ensures |downstream.taken| + downstream.accepts == |old(downstream.taken)| + old(downstream.accepts)
    ensures ending == Some(Refused) ==> downstream.accepts == 0
    ensures var (s, out, last) := Answered(mapper.lib, mapper.mapping, old(mapper.View()), r);
            && SentUpTo(old(downstream.Bytes()), downstream.Bytes(), out, ending == Some(Refused))
            && (ending != Some(Refused) ==> ending == last && (last.None? ==> mapper.View() == s))
  {
    ghost var before := downstream.Bytes();
    if r.Fault? {
      return Some(Failed(r.message));
    }
    if r.error != [] {
      var rest := mapper.Finish();
      var failure := FailureFromMessage(mapper.lib, r.error);
      var mapped := MapFailure(mapper.mapping, 0, failure);
      var ok: bool;
      if mapped.Some? {
        MappedIsRewritable(mapper.mapping, 0, failure);
        ok := EmitBoth(downstream, rest, Sse(mapper.lib, Rewrite(mapped.value, failure)));
      } else {
        ok := EmitBoth(downstream, rest, []);
      }
      return Some(if !ok then Refused else if mapped.Some? then Completed else Failed(r.error));
    }
    if r.payload.Undecodable? {
      return Some(Failed(BAD_ENCODING));
    }
    var out := [];
    if r.payload.Decoded? {
      out := mapper.PushHostChunk(r.payload.bytes);
    }
    if r.done {
      var rest := mapper.Finish();
      var ok := EmitBoth(downstream, out, rest);
      return Some(if ok then Completed else Refused);
    }
    var ok := downstream.Emit(out);
    return if ok then None else Some(Refused);
  }

  /** Pump until the stream ends or the stopping flag is seen up, at iteration `|answers|`. */
  method Pump(lib: Library, mapping: Mapping, answers: seq<Read>, downstream: Downstream) returns (ending: Ending)
    modifies downstream
    ensures |downstream.taken| + downstream.accepts == |old(downstream.taken)| + old(downstream.accepts)
    ensures ending.Refused? ==> downstream.accepts == 0
    ensures SentUpTo(old(downstream.Bytes()), downstream.Bytes(), Delivered(lib, mapping, answers).0, ending.Refused?)
    ensures ending.Refused? || ending == Delivered(lib, mapping, answers).1
  {
    var mapper := new SseMapper(lib, mapping);
    IteratedFromStart(lib, mapping, answers);
    assert answers[0..] == answers;
    ghost var before, sent := downstream.Bytes(), [];
    ghost var (total, last) := Iterated(lib, mapping, EMPTY, answers);
    var i := 0;
    while i < |answers|
      invariant 0 <= i <= |answers|
      invariant fresh(mapper) && mapper.Valid() && mapper.lib == lib && mapper.mapping == mapping
      invariant downstream.Bytes() == before + sent
      invariant StillToCome(lib, mapping, mapper.View(), answers[i..], sent, total, last)
      invariant |downstream.taken| + downstream.accepts == |old(downstream.taken)| + old(downstream.accepts)
    {
      ghost var s := mapper.View();
      ghost var (_, out, _) := Answered(lib, mapping, s, answers[i]);
      IterateOnce(lib, mapping, s, answers, i, sent, total, last);
      var answer := Answer(mapper, downstream, answers[i]);
      if answer.Some? {
        SentInAll(before, sent, downstream.Bytes(), out, total, answer == Some(Refused));
        return answer.value;
      }
      Associative(before, sent, out);
      sent := sent + out;
      i := i + 1;
    }
    NothingToCome(lib, mapping, mapper.View(), answers[i..], sent, total, last);
    return Stopped;
  }

  /** What was sent and what is still to come are the whole. */
  ghost predicate StillToCome(lib: Library, mapping: Mapping, s: State, answers: seq<Read>,
                              sent: Text, total: Text, last: Ending)
  {
    var (more, ending) := Iterated(lib, mapping, s, answers);
    sent + more == total && ending == last
  }

  lemma {:induction false} NothingToCome(lib: Library, mapping: Mapping, s: State, answers: seq<Read>,
                                         sent: Text, total: Text, last: Ending)
    requires answers == [] && StillToCome(lib, mapping, s, answers, sent, total, last)
    ensures sent == total && last == Stopped
  {
  }

  lemma {:induction false} IterateOnce(lib: Library, mapping: Mapping, s: State, answers: seq<Read>, i: nat,
                                       sent: Text, total: Text, last: Ending)
    requires i < |answers| && StillToCome(lib, mapping, s, answers[i..], sent, total, last)
    ensures var (t, out, ending) := Answered(lib, mapping, s, answers[i]);
            && sent + out <= total
            && (ending.Some? ==> sent + out == total && ending.value == last)
            && (ending.None? ==> StillToCome(lib, mapping, t, answers[i + 1..], sent + out, total, last))
  {
    assert answers[i..][1..] == answers[i + 1..];
    var (t, out, ending) := Answered(lib, mapping, s, answers[i]);
    if ending.None? {
      Associative(sent, out, Iterated(lib, mapping, t, answers[i + 1..]).0);
    }
  }

  // ----- Iterating is delivering -----

  lemma {:induction false} RunChunksSnoc(lib: Library, mapping: Mapping, s: State, chunks: seq<Text>, x: Text)
    ensures var (t, out) := RunChunks(lib, mapping, s, chunks);
            var (u, more) := Pushed(lib, mapping, t, x);
            RunChunks(lib, mapping, s, chunks + [x]) == (u, out + more)
    decreases |chunks|
  {
    if chunks == [] {
      assert [] + [x] == [x] && [x][1..] == [];
      assert Pushed(lib, mapping, s, x).1 + [] == Pushed(lib, mapping, s, x).1 == [] + Pushed(lib, mapping, s, x).1;
    } else {
      var (t, out) := Pushed(lib, mapping, s, chunks[0]);
      RunChunksSnoc(lib, mapping, t, chunks[1..], x);
      assert (chunks + [x])[1..] == chunks[1..] + [x];
      var (u, rest) := RunChunks(lib, mapping, t, chunks[1..]);
      Associative(out, rest, Pushed(lib, mapping, u, x).1);
    }
  }

  lemma {:induction false} HeardNext(lib: Library, answers: seq<Read>, i: nat)
    requires i < |answers|
    ensures Heard(lib, answers[..i + 1]) == Heard(lib, answers[..i]) + Pieces(lib, answers[i])
  {
    assert answers[..i + 1][..i] == answers[..i];
  }

  lemma {:induction false} EndsAtIs(answers: seq<Read>, n: nat)
    requires n <= |answers| && (n < |answers| ==> Ends(answers[n]))
    requires forall i :: 0 <= i < n ==> !Ends(answers[i])
    ensures EndsAt(answers) == n
  {
  }

  /** The state and the output of the mapper after the pieces of the first `i` answers. */
  function After(lib: Library, mapping: Mapping, answers: seq<Read>, i: nat): (State, Text)
    requires i <= |answers|
  {
    RunChunks(lib, mapping, EMPTY, Heard(lib, answers[..i]))
  }

  lemma {:induction false} AfterNext(lib: Library, mapping: Mapping, answers: seq<Read>, i: nat)
    requires i < |answers|
    ensures var r := answers[i];
            var (s, out) := After(lib, mapping, answers, i);
            if Pieces(lib, r) == [] then After(lib, mapping, answers, i + 1) == (s, out)
            else var (t, more) := Pushed(lib, mapping, s, Reframed(lib, r.payload.bytes));
                 After(lib, mapping, answers, i + 1) == (t, out + more)
  {
    HeardNext(lib, answers, i);
    var heard := Heard(lib, answers[..i]);
    if Pieces(lib, answers[i]) == [] {
      assert heard + [] == heard;
    } else {
      RunChunksSnoc(lib, mapping, EMPTY, heard, Reframed(lib, answers[i].payload.bytes));
    }
  }

  /** Output only grows. */
  lemma {:induction false} AfterGrows(lib: Library, mapping: Mapping, answers: seq<Read>, i: nat, j: nat)
    requires i <= j <= |answers|
    ensures After(lib, mapping, answers, i).1 <= After(lib, mapping, answers, j).1
    decreases j - i
  {
    if i < j {
      AfterNext(lib, mapping, answers, i);
      AfterGrows(lib, mapping, answers, i + 1, j);
    }
  }

  /** What is delivered starts with what the mapper has emitted up to any answer that was read. */
  lemma {:induction false} DeliveredStartsWith(lib: Library, mapping: Mapping, answers: seq<Read>, i: nat)
    requires i <= |answers| && forall j :: 0 <= j < i ==> !Ends(answers[j])
    ensures After(lib, mapping, answers, i).1 <= Delivered(lib, mapping, answers).0
  {
    var n := EndsAt(answers);
    AfterGrows(lib, mapping, answers, i, if n < |answers| then n + 1 else n);
    assert answers[..|answers|] == answers;
  }

  lemma {:induction false} LastIsDelivered(lib: Library, mapping: Mapping, answers: seq<Read>, i: nat)
    requires i < |answers| && Ends(answers[i]) && forall j :: 0 <= j < i ==> !Ends(answers[j])
    ensures var (s, out) := After(lib, mapping, answers, i);
            var (_, more, ending) := Answered(lib, mapping, s, answers[i]);
            ending.Some? && Delivered(lib, mapping, answers) == (out + more, ending.value)
  {
    EndsAtIs(answers, i);
    AfterNext(lib, mapping, answers, i);
    var (s, out) := After(lib, mapping, answers, i);
    var r := answers[i];
    if r.Fault? || r.error != [] || !r.payload.Decoded? {
      assert Pieces(lib, r) == [];
      assert out + [] == out;
      if r.Chunk? {
        Associative(out, s.pending, TerminalEvent(lib, mapping, r.error));
        assert [] + s.pending == s.pending;
      }
    } else {
      var (t, more) := Pushed(lib, mapping, s, Reframed(lib, r.payload.bytes));
      Associative(out, more, t.pending);
    }
  }

  lemma {:induction false} GoesOn(lib: Library, mapping: Mapping, answers: seq<Read>, i: nat)
    requires i < |answers| && !Ends(answers[i])
    ensures var (s, out) := After(lib, mapping, answers, i);
            var (t, more, ending) := Answered(lib, mapping, s, answers[i]);
            ending.None? && After(lib, mapping, answers, i + 1) == (t, out + more)
  {
    AfterNext(lib, mapping, answers, i);
    var (s, out) := After(lib, mapping, answers, i);
    assert out + [] == out;
  }

  /** What has been emitted up to answer `i` and what iterating from there adds. */
  function EmittedFrom(lib: Library, mapping: Mapping, answers: seq<Read>, i: nat): (Text, Ending)
    requires i <= |answers|
  {
    var (s, out) := After(lib, mapping, answers, i);
    var (more, ending) := Iterated(lib, mapping, s, answers[i..]);
    (out + more, ending)
  }

  lemma {:induction false} EmittedFromNext(lib: Library, mapping: Mapping, answers: seq<Read>, i: nat)
    requires i < |answers| && !Ends(answers[i])
    ensures EmittedFrom(lib, mapping, answers, i) == EmittedFrom(lib, mapping, answers, i + 1)
  {
    var (s, out) := After(lib, mapping, answers, i);
    var (t, more, _) := Answered(lib, mapping, s, answers[i]);
    GoesOn(lib, mapping, answers, i);
    assert answers[i..][1..] == answers[i + 1..];
    Associative(out, more, Iterated(lib, mapping, t, answers[i + 1..]).0);
  }

  lemma {:induction false} EmittedFromLast(lib: Library, mapping: Mapping, answers: seq<Read>, i: nat)
    requires i <= |answers| && (i < |answers| ==> Ends(answers[i])) && forall j :: 0 <= j < i ==> !Ends(answers[j])
    ensures EmittedFrom(lib, mapping, answers, i) == Delivered(lib, mapping, answers)
  {
    if i == |answers| {
      EndsAtIs(answers, i);
      assert answers[..i] == answers && answers[i..] == [];
      assert After(lib, mapping, answers, i).1 + [] == After(lib, mapping, answers, i).1;
    } else {
      LastIsDelivered(lib, mapping, answers, i);
    }
  }

  /** From any answer on that the loop reaches. */
  lemma {:induction false} IteratedIsDelivered(lib: Library, mapping: Mapping, answers: seq<Read>, i: nat)
    requires i <= |answers| && forall j :: 0 <= j < i ==> !Ends(answers[j])
    ensures EmittedFrom(lib, mapping, answers, i) == Delivered(lib, mapping, answers)
    decreases |answers| - i
  {
    if i == |answers| || Ends(answers[i]) {
      EmittedFromLast(lib, mapping, answers, i);
    } else {
      EmittedFromNext(lib, mapping, answers, i);
      IteratedIsDelivered(lib, mapping, answers, i + 1);
    }
  }

  lemma {:induction false} IteratedFromStart(lib: Library, mapping: Mapping, answers: seq<Read>)
    ensures Iterated(lib, mapping, EMPTY, answers) == Delivered(lib, mapping, answers)
  {
    IteratedIsDelivered(lib, mapping, answers, 0);
    assert answers[..0] == [] && answers[0..] == answers;
    assert [] + Iterated(lib, mapping, EMPTY, answers).0 == Iterated(lib, mapping, EMPTY, answers).0;
  }

  // ----- What the client receives -----

  /** Answers after the one that ends the loop make no difference. */
  lemma {:induction false} NothingAfterTheEnd(lib: Library, mapping: Mapping, answers: seq<Read>, n: nat)
    requires EndsAt(answers) < n <= |answers|
    ensures Delivered(lib, mapping, answers[..n]) == Delivered(lib, mapping, answers)
  {
    var m := EndsAt(answers);
    EndsAtIs(answers[..n], m);
    assert answers[..n][..m + 1] == answers[..m + 1] && answers[..n][m] == answers[m];
  }

  lemma {:induction false} StoppedBefore(lib: Library, mapping: Mapping, answers: seq<Read>, n: nat)
    requires n <= EndsAt(answers)
    ensures Delivered(lib, mapping, answers[..n]) == (After(lib, mapping, answers, n).1, Stopped)
  {
    EndsAtIs(answers[..n], n);
  }

  /** Stopping early only cuts the stream short. */
  lemma {:induction false} StoppingIsAPrefix(lib: Library, mapping: Mapping, answers: seq<Read>, n: nat)
    requires n <= |answers|
    ensures Delivered(lib, mapping, answers[..n]).0 <= Delivered(lib, mapping, answers).0
    ensures n <= EndsAt(answers) ==> Delivered(lib, mapping, answers[..n]).1 == Stopped
    ensures n > EndsAt(answers) ==> Delivered(lib, mapping, answers[..n]) == Delivered(lib, mapping, answers)
  {
    if n <= EndsAt(answers) {
      StoppedBefore(lib, mapping, answers, n);
      DeliveredStartsWith(lib, mapping, answers, n);
    } else {
      NothingAfterTheEnd(lib, mapping, answers, n);
    }
  }

  /** A stream that ends with done, and has no event too long for the buffer, reaches the client as
      the rewrite of the whole. */
  lemma {:induction false} DoneDeliversTheWhole(lib: Library, mapping: Mapping, answers: seq<Read>)
    requires var n := EndsAt(answers);
             && n < |answers| && answers[n].Chunk? && answers[n].error == [] && answers[n].done && !answers[n].payload.Undecodable?
             && forall f :: f in Frames(Concat(Heard(lib, answers[..n + 1]))) ==> |f| <= MAX_PENDING + 1
    ensures Delivered(lib, mapping, answers) == (Whole(lib, mapping, Concat(Heard(lib, answers[..EndsAt(answers) + 1]))), Completed)
  {
    var pieces := Heard(lib, answers[..EndsAt(answers) + 1]);
    FragmentationIsInvisible(lib, mapping, pieces, pieces);
  }

  /** An event moved right by a few bytes is not the event followed by an open tail. */
  lemma {:induction false} NoShift(t: Text, s: Text, u: Text)
    requires t != [] && |s| >= 2 && s[0] != s[1] && s[|s| - 2..] == [LF, LF]
    requires Open(u)
    ensures s + u != t + s
  {
    var a, b := s + u, t + s;
    if |t| == 1 {
      assert a[1] == s[1] && b[1] == s[0];
    } else if |u| == |t| {
      var n := |u| - 2;
      assert DelimiterAt(u, n) == 0 && a[|s| + n] == u[n] && a[|s| + n + 1] == u[n + 1];
      assert b[|s| + n] == s[|s| - 2..][0] && b[|s| + n + 1] == s[|s| - 2..][1];
    }
  }

  lemma {:induction false} CancelFront(a: seq<Text>, x: seq<Text>, y: seq<Text>)
    ensures a + x == a + y <==> x == y
  {
    assert (a + x)[|a|..] == x && (a + y)[|a|..] == y;
  }

  /** One event, recognisable by its first bytes and its end. */
  predicate Standing(event: Text) {
    IsFrame(event) && |event| >= 2 && event[0] != event[1] && event[|event| - 2..] == [LF, LF]
  }

  /** An event put after a stream is an event of its own exactly if the stream has no open tail. */
  lemma {:induction false} AppendedStandsAloneIff(out: Text, event: Text)
    requires Standing(event)
    ensures Frames(out + event) == Frames(out) + [event] <==> Tail(out) == []
  {
    var t := Tail(out);
    SplitInSteps(out, event);
    FrameIsOneEvent(event);
    CancelFront(Frames(out), Frames(t + event), [event]);
    if t == [] {
      assert t + event == event;
    } else {
      FramesAndTail(t + event);
      NoShift(t, event, Tail(t + event));
    }
  }

  lemma {:induction false} TerminalEventStands(lib: Library, mapping: Mapping, message: Text)
    requires Lawful(lib) && MappedTerminal(lib, mapping, message).Some? && Utf8(MappedTerminal(lib, mapping, message).value.message)
    ensures Standing(TerminalEvent(lib, mapping, message))
  {
    var failure := FailureFromMessage(lib, message);
    MappedIsRewritable(mapping, 0, failure);
    assert lib.parse(message) == Some(failure) || FailureFromMessage(lib, message) == failure;
    assert Arises(lib, failure);
    var v := Rewrite(MappedTerminal(lib, mapping, message).value, failure);
    Idempotence.SseIsFrame(lib, v);
    SseEnds(lib, v);
  }

  /** The loop ends with an error that the mapping turns into a retryable failure. */
  predicate EndsInMappedError(lib: Library, mapping: Mapping, answers: seq<Read>) {
    var n := EndsAt(answers);
    && n < |answers| && answers[n].Chunk? && answers[n].error != []
    && MappedTerminal(lib, mapping, answers[n].error).Some?
  }

  /** The pieces pushed up to and with the first answer that ends the loop. */
  function Received(lib: Library, answers: seq<Read>): seq<Text> {
    Heard(lib, answers[..if EndsAt(answers) < |answers| then EndsAt(answers) + 1 else |answers|])
  }

  /** What the mapping adds to the stream at the end of the loop. */
  function LastEvent(lib: Library, mapping: Mapping, answers: seq<Read>): Text
    requires EndsInMappedError(lib, mapping, answers)
  {
    TerminalEvent(lib, mapping, answers[EndsAt(answers)].error)
  }

  lemma {:induction false} MappedErrorDelivers(lib: Library, mapping: Mapping, answers: seq<Read>)
    requires EndsInMappedError(lib, mapping, answers)
    ensures Delivered(lib, mapping, answers) ==
            (Emitted(lib, mapping, Received(lib, answers)) + LastEvent(lib, mapping, answers), Completed)
  {
  }

  lemma {:induction false} LastEventStands(lib: Library, mapping: Mapping, answers: seq<Read>)
    requires Lawful(lib) && WellFormed(mapping) && EndsInMappedError(lib, mapping, answers)
    ensures Standing(LastEvent(lib, mapping, answers))
  {
    var message := answers[EndsAt(answers)].error;
    MappedMessageIsText(mapping, 0, FailureFromMessage(lib, message));
    TerminalEventStands(lib, mapping, message);
  }

  /** The exact condition, bypass included: a mapped terminal failure reaches the client as an event
      of its own if and only if the bytes read before it did not break off inside an event. */
  lemma {:induction false} TerminalEventStandsAloneIff(lib: Library, mapping: Mapping, answers: seq<Read>)
    requires Lawful(lib) && WellFormed(mapping) && EndsInMappedError(lib, mapping, answers)
    ensures Frames(Delivered(lib, mapping, answers).0) ==
            Frames(Emitted(lib, mapping, Received(lib, answers))) + [LastEvent(lib, mapping, answers)]
            <==> Tail(Concat(Received(lib, answers))) == []
  {
    MappedErrorDelivers(lib, mapping, answers);
    LastEventStands(lib, mapping, answers);
    AppendedStandsAloneIff(Emitted(lib, mapping, Received(lib, answers)), LastEvent(lib, mapping, answers));
    Idempotence.EmittedBreaksOffAlike(lib, mapping, Received(lib, answers));
  }

  const FRAGMENT: Text := Ascii("\ndata: {")

  /** A stream that breaks off inside a data line, and a rule for the error that follows. */
  function BrokenOff(message: Text): seq<Read> {
    [Chunk([], Decoded(FRAGMENT), false), Chunk(message, Absent, true)]
  }

  function RuleFor(message: Text): Mapping {
    Mapping(true, [Rule(Ascii("any"), Match([], [], [], Some(message)), Retryable(Ascii("retry"), None))])
  }

  lemma {:induction false} FragmentIsOpen()
    ensures |FRAGMENT| == 8 && Open(FRAGMENT) && FRAGMENT[0] == LF
  {
    assert FRAGMENT[0] == LF && FRAGMENT[1] == 'd' as int as byte && FRAGMENT[7] == '{' as int as byte;
    assert forall i :: 0 < i < 8 ==> FRAGMENT[i] != LF && FRAGMENT[i] != CR;
    FirstIs(FRAGMENT, 0, 8);
  }

  lemma {:induction false} RuleMatches(lib: Library, message: Text)
    requires lib.parse(message).None?
    ensures MappedTerminal(lib, RuleFor(message), message) == Some(Retryable(Ascii("retry"), None))
  {
    KeysAreDistinct();
    var failure := FailureFromMessage(lib, message);
    assert At(At(failure, RESPONSE), ERROR) == Object(map[MESSAGE := String(message)]);
    assert OccursAt(message, message, 0);
  }

  lemma {:induction false} GluedIsOneEvent(f: Text)
    requires IsFrame(f)
    ensures Frames(FRAGMENT + f) == [FRAGMENT + f]
  {
    FragmentIsOpen();
    var g, last := FRAGMENT + f, FirstDelimiter(f, 0);
    assert g[8..] == f;
    forall i | 0 <= i < 8 + last ensures DelimiterAt(g, i) == 0 {
      if i < 8 {
        assert g[i] == FRAGMENT[i] && (i == 0 ==> g[1] == FRAGMENT[1]);
      } else {
        ShiftedDelimiter(g, 8, i - 8);
      }
    }
    ShiftedDelimiter(g, 8, last);
    FirstIs(g, 0, 8 + last);
    FrameIsOneEvent(g);
  }

  lemma {:induction false} BrokenOffDelivers(lib: Library, mapping: Mapping, message: Text)
    requires message != [] && MappedTerminal(lib, mapping, message).Some?
    ensures Delivered(lib, mapping, BrokenOff(message)) == (FRAGMENT + TerminalEvent(lib, mapping, message), Completed)
  {
    var answers := BrokenOff(message);
    FragmentIsOpen();
    EndsAtIs(answers, 1);
    assert answers[..2] == answers && answers[..1] == [answers[0]] && answers[..1][..0] == [];
    HeardNext(lib, answers, 0);
    HeardNext(lib, answers, 1);
    assert LF in FRAGMENT && Reframed(lib, FRAGMENT) == FRAGMENT;
    assert Heard(lib, answers) == [] + [FRAGMENT] + [] == [FRAGMENT];
    OnePush(lib, mapping, FRAGMENT);
    assert [] + FRAGMENT == FRAGMENT;
  }

  /** For example the failure is lost in the data line that the stream broke off in: the client
      sees one event, and it is not the failure. */
  lemma {:induction false} TerminalEventIsSwallowed(lib: Library, message: Text)
    requires message != [] && lib.parse(message).None? && Lawful(lib)
    ensures var out, event := Delivered(lib, RuleFor(message), BrokenOff(message)), TerminalEvent(lib, RuleFor(message), message);
            && out == (FRAGMENT + event, Completed)
            && Frames(out.0) == [out.0] && out.0 != event
  {
    var mapping := RuleFor(message);
    RuleMatches(lib, message);
    AsciiIsUtf8(Ascii("retry"));
    BrokenOffDelivers(lib, mapping, message);
    TerminalEventStands(lib, mapping, message);
    GluedIsOneEvent(TerminalEvent(lib, mapping, message));
    FragmentIsOpen();
    assert |FRAGMENT + TerminalEvent(lib, mapping, message)| > |TerminalEvent(lib, mapping, message)|;
  }

  lemma {:induction false} SseEnds(lib: Library, v: Json)
    ensures var s := Sse(lib, v); |s| >= 2 && s[0] != s[1] && s[|s| - 2..] == [LF, LF]
  {
    assert HEAD[0] == 'e' as int as byte && HEAD[1] == 'v' as int as byte;
  }
}
