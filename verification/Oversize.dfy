/** Events too long for the buffer that a mapper would rewrite: how they come out depends on the cut. */
module Oversize {
  import opened Wrappers
  import opened Bytes
  import opened Json
  import opened ErrorMapping
  import opened Framing
  import opened SseMapper
  import opened Streams
  import opened Idempotence

  const COLON: byte := 58

  function Blank(n: nat): (t: Text)
    ensures |t| == n && forall i :: 0 <= i < n ==> t[i] == SPACE
  {
    seq(n, _ => SPACE)
  }

  /** A comment line of 1 MiB and one byte. */
  const COMMENT: Text := [COLON] + Blank(MAX_PENDING)

  /** The comment before a data line. */
  function Commented(data: Text): Text {
    COMMENT + [LF] + ((DATA_FIELD + data) + [LF] + [LF])
  }

  lemma {:induction false} CommentIsALine()
    ensures LF !in COMMENT && CR !in COMMENT && !StartsWith(COMMENT, DATA) && Utf8(COMMENT)
    ensures |COMMENT| == MAX_PENDING + 1 && COMMENT[0] == COLON
  {
    assert |DATA| == 5 && DATA[0] == 'd' as int as byte;
    assert forall i :: 0 < i < |COMMENT| ==> COMMENT[i] == SPACE;
    FirstByte(COMMENT, DATA);
    AsciiIsUtf8(COMMENT);
  }

  lemma {:induction false} CommentedIsText(data: Text)
    requires Utf8(data)
    ensures Utf8(Commented(data))
  {
    CommentIsALine();
    assert DATA_FIELD[0] == 'd' as int as byte;
    AsciiIsUtf8(DATA_FIELD);
    AsciiIsUtf8([LF]);
    Utf8Concat(DATA_FIELD, data);
    Utf8Concat(DATA_FIELD + data, [LF]);
    Utf8Concat(DATA_FIELD + data + [LF], [LF]);
    Utf8Concat(COMMENT, [LF]);
    Utf8Concat(COMMENT + [LF], (DATA_FIELD + data) + [LF] + [LF]);
  }

  lemma {:induction false} CommentedCarriesItsData(data: Text)
    requires LF !in data && CR !in data
    ensures IsFrame(Commented(data)) && DataOf(Commented(data)) == data
  {
    CommentIsALine();
    HeadLines();
    TwoLines(COMMENT, DATA_FIELD + data);
    TwoLinesAreAFrame(COMMENT, DATA_FIELD + data);
    OneDataField(COMMENT, DATA_FIELD, data);
  }

  /** Any one-line data that a rule maps makes such an event: pushed whole it comes out rewritten,
      pushed in pieces as it is. */
  lemma {:induction false} CommentedFailureShows(lib: Library, mapping: Mapping, data: Text)
    requires Utf8(data) && LF !in data && CR !in data
    requires FailureIn(lib, data).Some? && MapFailure(mapping, 0, FailureIn(lib, data).value).Some?
    ensures var f := Commented(data);
            && IsFrame(f) && |f| > MAX_PENDING + 1 && RewriteFrame(lib, mapping, f) != f
            && Emitted(lib, mapping, [f]) == RewriteFrame(lib, mapping, f)
            && Concat(Overflowing(f, 0)) == f && Emitted(lib, mapping, Overflowing(f, 0)) == f
            && !CutsAgree(lib, mapping, f)
  {
    var f := Commented(data);
    CommentIsALine();
    CommentedIsText(data);
    CommentedCarriesItsData(data);
    MappedIsRewritable(mapping, 0, FailureIn(lib, data).value);
    assert HEAD[0] == 'e' as int as byte;
    assert RewriteFrame(lib, mapping, f)[0] == HEAD[0] && f[0] == COLON;
    OversizeFailureShows(lib, mapping, f);
  }
}
