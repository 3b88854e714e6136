/** Byte streams handed over in fragments: only a whole `event:` or `data:` line is ever completed. */
module Fragments {
  import opened Wrappers
  import opened Bytes
  import opened Json
  import opened ErrorMapping
  import opened Framing
  import opened SseMapper
  import opened HostRecords
  import opened Streams
  import opened Pump

  /** A chunk without line breaks that is an `event:` line. */
  predicate EventLine(chunk: Text) {
    10 !in chunk && 13 !in chunk && StartsWith(chunk, Ascii("event:"))
  }

  /** A chunk without line breaks that is a `data:` line, its value JSON or, trimmed, `[DONE]`. */
  predicate DataLine(lib: Library, chunk: Text) {
    && 10 !in chunk && 13 !in chunk && StartsWith(chunk, Ascii("data:"))
    && var data := chunk[5..];
       lib.parse(data).Some? || lib.trim(if Utf8(data) then data else []) == Ascii("[DONE]")
  }

  /** Exactly these two are completed, by the line feeds that they lack. */
  lemma {:induction false} OnlyLinesAreCompleted(lib: Library, chunk: Text)
    ensures EventLine(chunk) ==> Reframed(lib, chunk) == chunk + [10]
    ensures DataLine(lib, chunk) ==> Reframed(lib, chunk) == chunk + [10, 10]
    ensures Reframed(lib, chunk) == chunk <==> !EventLine(chunk) && !DataLine(lib, chunk)
  {
    assert EVENT == Ascii("event:") && DATA == Ascii("data:") && DONE == Ascii("[DONE]");
    assert TERMINATOR == [10, 10];
    RecordsAreDisjoint(chunk);
  }

  predicate Fragment(lib: Library, chunk: Text) {
    !EventLine(chunk) && !DataLine(lib, chunk)
  }

  /** Fragments take the ordinary path, whatever is buffered: nothing is added and nothing cut. */
  lemma {:induction false} FragmentsArePushedAsTheyAre(lib: Library, mapping: Mapping, s: State, chunks: seq<Text>)
    requires forall c :: c in chunks ==> Fragment(lib, c)
    ensures RunRecords(lib, mapping, s, chunks) == RunChunks(lib, mapping, s, chunks)
    decreases |chunks|
  {
    if chunks != [] {
      assert chunks[0] in chunks && forall c :: c in chunks[1..] ==> c in chunks;
      OnlyLinesAreCompleted(lib, chunks[0]);
      FragmentsArePushedAsTheyAre(lib, mapping, Pushed(lib, mapping, s, chunks[0]).0, chunks[1..]);
    }
  }

  /** So however a stream is cut into fragments, pushing them and then finishing gives its rewrite. */
  lemma {:induction false} FragmentedStreamIsRewritten(lib: Library, mapping: Mapping, chunks: seq<Text>)
    requires forall c :: c in chunks ==> Fragment(lib, c)
    requires forall f :: f in Frames(Concat(chunks)) ==> |f| <= MAX_PENDING + 1
    ensures var (s, out) := RunRecords(lib, mapping, EMPTY, chunks);
            out + s.pending == Whole(lib, mapping, Concat(chunks))
  {
    FragmentsArePushedAsTheyAre(lib, mapping, EMPTY, chunks);
    FragmentationIsInvisible(lib, mapping, chunks, chunks);
  }

  // ----- The same for what is pumped -----

  /** The payloads of the answers, as the host sent them. */
  function Payloads(answers: seq<Read>): seq<Text> {
    if answers == [] then []
    else
      var last := answers[|answers| - 1];
      Payloads(answers[..|answers| - 1]) + if last.Chunk? && last.payload.Decoded? then [last.payload.bytes] else []
  }

  /** Neither a failure nor an error, and a payload, if any, that is a fragment. */
  predicate FragmentRead(lib: Library, r: Read) {
    r.Chunk? && r.error == [] && !r.payload.Undecodable? && (r.payload.Decoded? ==> Fragment(lib, r.payload.bytes))
  }

  lemma {:induction false} HeardAsSent(lib: Library, answers: seq<Read>)
    requires forall r :: r in answers ==> FragmentRead(lib, r)
    ensures Heard(lib, answers) == Payloads(answers)
  {
    if answers != [] {
      var front, last := answers[..|answers| - 1], answers[|answers| - 1];
      assert last in answers && forall r :: r in front ==> r in answers;
      HeardAsSent(lib, front);
      if last.payload.Decoded? {
        OnlyLinesAreCompleted(lib, last.payload.bytes);
      }
    }
  }

  /** The answers are fragments up to `n`, the first that is done. */
  predicate ReadInFragments(lib: Library, answers: seq<Read>, n: nat) {
    n < |answers| && forall i :: 0 <= i <= n ==> FragmentRead(lib, answers[i]) && (answers[i].done <==> i == n)
  }

  lemma {:induction false} FragmentsAreHeard(lib: Library, answers: seq<Read>, n: nat)
    requires ReadInFragments(lib, answers, n)
    ensures EndsAt(answers) == n && Heard(lib, answers[..n + 1]) == Payloads(answers[..n + 1])
  {
    EndsAtIs(answers, n);
    HeardAsSent(lib, answers[..n + 1]);
  }

  /** A stream read in fragments up to the answer that is done reaches the client as the rewrite of
      the bytes that the host sent. */
  lemma {:induction false} FragmentsReachTheClient(lib: Library, mapping: Mapping, answers: seq<Read>, n: nat)
    requires ReadInFragments(lib, answers, n)
    requires forall f :: f in Frames(Concat(Payloads(answers[..n + 1]))) ==> |f| <= MAX_PENDING + 1
    ensures Delivered(lib, mapping, answers) == (Whole(lib, mapping, Concat(Payloads(answers[..n + 1]))), Completed)
  {
    FragmentsAreHeard(lib, answers, n);
    DoneDeliversTheWhole(lib, mapping, answers);
  }
}
