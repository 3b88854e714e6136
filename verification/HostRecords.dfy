/** Host records, one line each without its line feed: every event leaves with its data line. */
module HostRecords {
  import opened Bytes
  import opened Json
  import opened ErrorMapping
  import opened Framing
  import opened SseMapper

  predicate EventRecord(r: Text) {
    OneLine(r) && StartsWith(r, EVENT)
  }

  predicate DataRecord(lib: Library, r: Text) {
    OneLine(r) && StartsWith(r, DATA) && ValidData(lib, r[|DATA|..])
  }

  predicate HostRecord(lib: Library, r: Text) {
    EventRecord(r) || DataRecord(lib, r)
  }

  lemma {:induction false} RecordsAreDisjoint(r: Text)
    ensures StartsWith(r, EVENT) ==> !StartsWith(r, DATA)
  {
    assert |EVENT| == 6 && |DATA| == 5 && EVENT[0] == 'e' as int as byte && DATA[0] == 'd' as int as byte;
    FirstByte(r, EVENT);
    FirstByte(r, DATA);
  }

  /** The events that the records make up, given the lines already held back. */
  function Events(held: Text, records: seq<Text>): seq<Text>
    decreases |records|
  {
    if records == [] then []
    else if StartsWith(records[0], EVENT) then Events(held + records[0] + [LF], records[1..])
    else [held + records[0] + TERMINATOR] + Events([], records[1..])
  }

  /** The event lines that still wait for their data line. */
  function Held(held: Text, records: seq<Text>): Text
    decreases |records|
  {
    if records == [] then held
    else if StartsWith(records[0], EVENT) then Held(held + records[0] + [LF], records[1..])
    else Held([], records[1..])
  }

  /** The lines held back never exceed the buffer. */
  predicate Fits(held: Text, records: seq<Text>)
    decreases |records|
  {
    |held| <= MAX_PENDING &&
    (records == [] ||
     if StartsWith(records[0], EVENT) then Fits(held + records[0] + [LF], records[1..]) else Fits([], records[1..]))
  }

  function RunRecords(lib: Library, mapping: Mapping, s: State, records: seq<Text>): (State, Text)
    decreases |records|
  {
    if records == [] then (s, [])
    else
      var (t, out) := Pushed(lib, mapping, s, Reframed(lib, records[0]));
      var (u, more) := RunRecords(lib, mapping, t, records[1..]);
      (u, out + more)
  }

  lemma {:induction false} Unfold(lib: Library, mapping: Mapping, s: State, records: seq<Text>, t: State, out: Text)
    requires records != [] && Pushed(lib, mapping, s, Reframed(lib, records[0])) == (t, out)
    ensures var (u, more) := RunRecords(lib, mapping, t, records[1..]);
            RunRecords(lib, mapping, s, records) == (u, out + more)
  {
  }

  /** Lines, each with its line feed, none of them empty. */
  predicate WholeLines(t: Text) {
    && CR !in t
    && (forall i :: 0 <= i < |t| - 1 && t[i] == LF ==> t[i + 1] != LF)
    && (t != [] ==> t[|t| - 1] == LF)
    && (t != [] ==> t[0] != LF)
  }

  lemma {:induction false} RecordIsNotEmpty(lib: Library, r: Text)
    requires HostRecord(lib, r)
    ensures r != [] && r[0] != LF
  {
    assert |EVENT| == 6 && |DATA| == 5;
    assert r[0] in r;
  }

  lemma {:induction false} OneMoreLine(lib: Library, held: Text, r: Text)
    requires WholeLines(held) && HostRecord(lib, r)
    ensures WholeLines(held + r + [LF]) && Open(held + r + [LF])
  {
    RecordIsNotEmpty(lib, r);
    var t := held + r + [LF];
    assert forall j :: 0 <= j < |r| ==> t[|held| + j] == r[j] && r[j] in r;
    assert forall i :: |held| <= i < |t| - 1 ==> t[i] == r[i - |held|];
    assert forall i :: 0 <= i < |held| ==> t[i] == held[i];
    LinesAreOpen(t);
  }

  lemma {:induction false} LinesAreOpen(t: Text)
    requires WholeLines(t)
    ensures Open(t)
  {
    forall i | 0 <= i < |t| ensures DelimiterAt(t, i) == 0 {
      assert t[i] in t;
    }
    FirstIs(t, 0, |t|);
  }

  lemma {:induction false} DataLineClosesTheEvent(lib: Library, held: Text, r: Text)
    requires WholeLines(held) && HostRecord(lib, r)
    ensures IsFrame(held + r + TERMINATOR)
  {
    var t, f := held + r + [LF], held + r + TERMINATOR;
    OneMoreLine(lib, held, r);
    var n := |held| + |r|;
    assert TERMINATOR == [LF, LF] && f == t + [LF];
    forall i | 0 <= i < n ensures DelimiterAt(f, i) == 0 {
      assert f[i] == t[i] && f[i + 1] == t[i + 1];
      assert t[i] in t;
    }
    FirstIs(f, 0, n);
  }

  lemma {:induction false} EventRecordIsHeld(lib: Library, mapping: Mapping, held: Text, r: Text)
    requires WholeLines(held) && EventRecord(r) && |held + r + [LF]| <= MAX_PENDING
    ensures Pushed(lib, mapping, State(held, false), Reframed(lib, r)) == (State(held + r + [LF], false), [])
  {
    RecordsAreDisjoint(r);
    OneMoreLine(lib, held, r);
    assert held + (r + [LF]) == held + r + [LF];
  }

  lemma {:induction false} DataRecordIsEmitted(lib: Library, mapping: Mapping, held: Text, r: Text)
    requires WholeLines(held) && DataRecord(lib, r)
    ensures Pushed(lib, mapping, State(held, false), Reframed(lib, r)) ==
            (EMPTY, RewriteFrame(lib, mapping, held + r + TERMINATOR))
  {
    DataLineClosesTheEvent(lib, held, r);
    var f := held + r + TERMINATOR;
    assert held + (r + TERMINATOR) == f;
    FramesOfFrames([f], []);
    assert Concat([f]) + [] == f;
    assert Rewritten(lib, mapping, [f]) == RewriteFrame(lib, mapping, f) + [] == RewriteFrame(lib, mapping, f);
  }

  /** No latency: whatever host records have arrived, the output is the rewrite of exactly the
      events they complete, in order, and only event lines without their data line are held. */
  lemma {:induction false} NoLatency(lib: Library, mapping: Mapping, held: Text, records: seq<Text>)
    requires WholeLines(held) && Fits(held, records)
    requires forall r :: r in records ==> HostRecord(lib, r)
    ensures RunRecords(lib, mapping, State(held, false), records) ==
            (State(Held(held, records), false), Rewritten(lib, mapping, Events(held, records)))
    decreases |records|
  {
    if records != [] {
      var r, rest := records[0], records[1..];
      RecordsAreDisjoint(r);
      assert r in records && forall x :: x in rest ==> x in records;
      if StartsWith(r, EVENT) {
        EventRecordIsHeld(lib, mapping, held, r);
        OneMoreLine(lib, held, r);
        NoLatency(lib, mapping, held + r + [LF], rest);
        Unfold(lib, mapping, State(held, false), records, State(held + r + [LF], false), []);
        assert [] + Rewritten(lib, mapping, Events(held, records)) == Rewritten(lib, mapping, Events(held, records));
      } else {
        DataRecordIsEmitted(lib, mapping, held, r);
        NoLatency(lib, mapping, [], rest);
        var f := held + r + TERMINATOR;
        assert ([f] + Events([], rest))[1..] == Events([], rest);
        Unfold(lib, mapping, State(held, false), records, EMPTY, RewriteFrame(lib, mapping, f));
      }
    }
  }

  /** After a data record nothing is held back. */
  lemma {:induction false} NothingHeldAfterData(lib: Library, held: Text, records: seq<Text>)
    requires records != [] && DataRecord(lib, records[|records| - 1])
    ensures Held(held, records) == []
    decreases |records|
  {
    RecordsAreDisjoint(records[|records| - 1]);
    if |records| > 1 {
      var next := if StartsWith(records[0], EVENT) then held + records[0] + [LF] else [];
      NothingHeldAfterData(lib, next, records[1..]);
    }
  }
}
