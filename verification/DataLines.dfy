/** The data of an event, from its lines. */
module DataLines {
  import opened Wrappers
  import opened Bytes
  import opened SseMapper

  /** A line as it is sent: a data field, with or without a space after the colon, or any other. */
  datatype Line = Data(value: Text, spaced: bool) | Other(text: Text)

  predicate OneLiner(text: Text) {
    10 !in text && (text != [] ==> text[|text| - 1] != 13)
  }

  /** What a line may hold; a value that starts with a space has to be sent with another before it. */
  predicate Sendable(line: Line) {
    if line.Data? then OneLiner(line.value) && (StartsWith(line.value, [32]) ==> line.spaced)
    else OneLiner(line.text) && !StartsWith(line.text, Ascii("data:"))
  }

  function LineText(line: Line): Text {
    if line.Data? then Ascii("data:") + (if line.spaced then [32] else []) + line.value else line.text
  }

  /** The lines on the wire, each ended by LF or by CR LF. */
  function Wire(lines: seq<Line>, crlf: bool): Text {
    if lines == [] then [] else LineText(lines[0]) + (if crlf then [13, 10] else [10]) + Wire(lines[1..], crlf)
  }

  /** The values of the data fields, each followed by a line feed. */
  function Values(lines: seq<Line>): Text {
    if lines == [] then []
    else (if lines[0].Data? then lines[0].value + [10] else []) + Values(lines[1..])
  }

  function LineTexts(lines: seq<Line>): seq<Text> {
    if lines == [] then [] else [LineText(lines[0])] + LineTexts(lines[1..])
  }

  lemma {:induction false} TextIsOneLine(line: Line)
    requires Sendable(line)
    ensures OneLiner(LineText(line))
  {
    if line.Data? {
      var head := Ascii("data:") + if line.spaced then [32] else [];
      assert |head| >= 5 && head[0] == 100 && head[1] == 97 && head[2] == 116 && head[3] == 97 && head[4] == 58;
      assert LineText(line) == head + line.value;
      assert |head| > 5 ==> head[5] == 32;
    }
  }

  lemma {:induction false} FirstOfLines(text: Text, crlf: bool, rest: Text)
    requires OneLiner(text)
    ensures Lines(text + (if crlf then [13, 10] else [10]) + rest) == [text] + Lines(rest)
  {
    var ended := text + if crlf then [13] else [];
    var t := text + (if crlf then [13, 10] else [10]) + rest;
    assert t == ended + [10] + rest;
    assert t[..|ended|] == ended && t[|ended| + 1..] == rest;
    IndexOfIs(t, LF, |ended|);
    assert crlf ==> ended[..|ended| - 1] == text;
    assert WithoutCr(ended) == text;
  }

  lemma {:induction false} Regrouped<T>(a: seq<T>, b: seq<T>, c: seq<T>)
    ensures (a + b) + c == a + (b + c)
  {
  }

  lemma {:induction false} LinesThenRest(lines: seq<Line>, crlf: bool, rest: Text)
    requires forall line :: line in lines ==> Sendable(line)
    ensures Lines(Wire(lines, crlf) + rest) == LineTexts(lines) + Lines(rest)
  {
    if lines == [] {
      assert [] + rest == rest && [] + Lines(rest) == Lines(rest);
    } else {
      assert lines[0] in lines && forall line :: line in lines[1..] ==> line in lines;
      var first, others := LineText(lines[0]), Wire(lines[1..], crlf);
      var end: Text := if crlf then [13, 10] else [10];
      TextIsOneLine(lines[0]);
      LinesThenRest(lines[1..], crlf, rest);
      FirstOfLines(first, crlf, others + rest);
      Regrouped(first + end, others, rest);
      Regrouped([first], LineTexts(lines[1..]), Lines(rest));
    }
  }

  lemma {:induction false} LinesOfWire(lines: seq<Line>, crlf: bool)
    requires forall line :: line in lines ==> Sendable(line)
    ensures Lines(Wire(lines, crlf)) == LineTexts(lines)
  {
    LinesThenRest(lines, crlf, []);
    assert Wire(lines, crlf) + [] == Wire(lines, crlf) && LineTexts(lines) + [] == LineTexts(lines);
  }

  /** A last line needs no line feed. */
  lemma {:induction false} LastLineNeedsNoEnd(lines: seq<Line>, crlf: bool, last: Text)
    requires last != [] && 10 !in last && forall line :: line in lines ==> Sendable(line)
    ensures Lines(Wire(lines, crlf) + last) == LineTexts(lines) + [last]
  {
    LinesThenRest(lines, crlf, last);
  }

  /** One line gives its value, a line that is no data field nothing. */
  lemma {:induction false} FieldOfLine(line: Line, rest: seq<Text>)
    requires Sendable(line)
    ensures DataFields([LineText(line)] + rest) == (if line.Data? then [line.value] else []) + DataFields(rest)
  {
    var text, all := LineText(line), [LineText(line)] + rest;
    assert all[1..] == rest && DATA == Ascii("data:");
    if line.Data? {
      var behind := text[5..];
      assert text[..5] == DATA && behind == (if line.spaced then [32] else []) + line.value;
      if line.spaced {
        assert behind[..1] == [SPACE] && behind[1..] == line.value;
      } else {
        assert behind == line.value;
      }
    } else {
      assert StripPrefix(text, DATA) == None;
      assert [] + DataFields(rest) == DataFields(rest);
    }
  }

  lemma {:induction false} JoinedFirst(value: Text, others: seq<Text>)
    ensures Join([value] + others, LF) + [10] == value + [10] + if others == [] then [] else Join(others, LF) + [10]
  {
    assert ([value] + others)[1..] == others;
    if others != [] {
      assert (value + [10] + Join(others, LF)) + [10] == value + [10] + (Join(others, LF) + [10]);
    }
  }

  lemma {:induction false} FieldsJoined(lines: seq<Line>)
    requires forall line :: line in lines ==> Sendable(line)
    ensures var fields := DataFields(LineTexts(lines));
            Values(lines) == if fields == [] then [] else Join(fields, LF) + [10]
  {
    if lines != [] {
      assert lines[0] in lines && forall line :: line in lines[1..] ==> line in lines;
      FieldsJoined(lines[1..]);
      FieldOfLine(lines[0], LineTexts(lines[1..]));
      var others := DataFields(LineTexts(lines[1..]));
      if lines[0].Data? {
        JoinedFirst(lines[0].value, others);
      } else {
        assert [] + others == others && [] + Values(lines[1..]) == Values(lines[1..]);
      }
    }
  }

  /** The data of an event are the values of its data fields, one to a line; comments and other
      fields are passed over, and so is one space after the colon. */
  lemma {:induction false} DataIsTheValues(lines: seq<Line>, crlf: bool)
    requires forall line :: line in lines ==> Sendable(line)
    ensures if Values(lines) == [] then DataOf(Wire(lines, crlf)) == [] else DataOf(Wire(lines, crlf)) + [10] == Values(lines)
  {
    LinesOfWire(lines, crlf);
    FieldsJoined(lines);
  }
}
