/** Bytes, text as UTF-8 bytes, and the few operations on them that the rewriter uses. */
module Bytes {
  import opened Wrappers

  newtype byte = x: int | 0 <= x < 256

  type Text = seq<byte>

  const LF: byte := 10
  const CR: byte := 13
  const SPACE: byte := 32

  /** The bytes of an ASCII literal. */
  function Ascii(s: string): (t: Text)
    requires forall i :: 0 <= i < |s| ==> s[i] as int < 128
    ensures |t| == |s|
    ensures forall i :: 0 <= i < |s| ==> t[i] as int == s[i] as int
  {
    seq(|s|, i requires 0 <= i < |s| => s[i] as int as byte)
  }

  predicate StartsWith(t: Text, prefix: Text) {
    |prefix| <= |t| && t[..|prefix|] == prefix
  }

  lemma {:induction false} FirstByte(t: Text, prefix: Text)
    requires prefix != []
    ensures StartsWith(t, prefix) ==> t != [] && t[0] == prefix[0]
  {
    assert StartsWith(t, prefix) ==> t[0] == t[..|prefix|][0];
  }

  function StripPrefix(t: Text, prefix: Text): Option<Text> {
    if StartsWith(t, prefix) then Some(t[|prefix|..]) else None
  }

  predicate OccursAt(t: Text, needle: Text, i: nat) {
    i + |needle| <= |t| && t[i..i + |needle|] == needle
  }

  predicate Contains(t: Text, needle: Text) {
    exists i :: 0 <= i <= |t| && OccursAt(t, needle, i)
  }

  function Concat(parts: seq<Text>): Text {
    if parts == [] then [] else parts[0] + Concat(parts[1..])
  }

  lemma {:induction false} ConcatAppend(a: seq<Text>, b: seq<Text>)
    ensures Concat(a + b) == Concat(a) + Concat(b)
  {
    if a == [] {
      assert a + b == b;
    } else {
      ConcatAppend(a[1..], b);
      assert (a + b)[0] == a[0] && (a + b)[1..] == a[1..] + b;
      Associative(a[0], Concat(a[1..]), Concat(b));
    }
  }

  lemma {:induction false} Associative(a: Text, b: Text, c: Text)
    ensures (a + b) + c == a + (b + c)
  {
  }

  function Join(parts: seq<Text>, separator: byte): Text {
    if parts == [] then []
    else if |parts| == 1 then parts[0]
    else parts[0] + [separator] + Join(parts[1..], separator)
  }

  /** Decimal digits. */
  function Digits(n: nat): Text {
    (if n < 10 then [] else Digits(n / 10)) + [(0x30 + n % 10) as byte]
  }

  // ----- UTF-8, section 4 of RFC 3629 -----

  predicate Continues(b: byte) { 0x80 <= b as int <= 0xBF }

  /** The length of the well-formed character that `t` starts with, or zero. */
  function CharLength(t: Text): nat {
    if t == [] then 0
    else
      var a := t[0] as int;
      if a <= 0x7F then 1
      else if |t| < 2 || !Continues(t[1]) then 0
      else
        var b := t[1] as int;
        if 0xC2 <= a <= 0xDF then 2
        else if |t| < 3 || !Continues(t[2]) then 0
        else if (a == 0xE0 && 0xA0 <= b) || 0xE1 <= a <= 0xEC || (a == 0xED && b <= 0x9F) || 0xEE <= a <= 0xEF then 3
        else if |t| < 4 || !Continues(t[3]) then 0
        else if (a == 0xF0 && 0x90 <= b) || 0xF1 <= a <= 0xF3 || (a == 0xF4 && b <= 0x8F) then 4
        else 0
  }

  predicate Utf8(t: Text)
    decreases |t|
  {
    t == [] || (0 < CharLength(t) <= |t| && Utf8(t[CharLength(t)..]))
  }

  /** The first character does not depend on what follows it. */
  lemma {:induction false} FirstCharacter(a: Text, b: Text)
    requires 0 < CharLength(a) <= |a|
    ensures CharLength(a + b) == CharLength(a)
  {
    assert forall i :: 0 <= i < |a| ==> (a + b)[i] == a[i];
  }

  lemma {:induction false} Utf8Concat(a: Text, b: Text)
    requires Utf8(a) && Utf8(b)
    ensures Utf8(a + b)
    decreases |a|
  {
    if a == [] {
      assert a + b == b;
    } else {
      Utf8Concat(a[CharLength(a)..], b);
      Utf8Prepend(a, b, CharLength(a));
    }
  }

  lemma {:induction false} Utf8Prepend(a: Text, b: Text, n: nat)
    requires n == CharLength(a) && 0 < n <= |a| && Utf8(a[n..] + b)
    ensures Utf8(a + b)
  {
    FirstCharacter(a, b);
    assert (a + b)[n..] == a[n..] + b;
  }

  lemma {:induction false} AsciiIsUtf8(t: Text)
    requires forall i :: 0 <= i < |t| ==> t[i] as int < 128
    ensures Utf8(t)
    decreases |t|
  {
    if t != [] {
      assert CharLength(t) == 1;
      AsciiIsUtf8(t[1..]);
    }
  }

  // ----- Lines -----

  function IndexOf(t: Text, b: byte): (i: nat)
    ensures i <= |t|
    ensures i < |t| ==> t[i] == b
    ensures b !in t[..i]
  {
    if t == [] || t[0] == b then 0
    else
      var i := 1 + IndexOf(t[1..], b);
      assert t[..i] == [t[0]] + t[1..][..i - 1];
      i
  }

  function WithoutCr(line: Text): Text {
    if line != [] && line[|line| - 1] == CR then line[..|line| - 1] else line
  }

  /** Split at line feeds, dropping each terminator and a carriage return before it. */
  function Lines(t: Text): seq<Text>
    decreases |t|
  {
    if t == [] then []
    else
      var i := IndexOf(t, LF);
      if i == |t| then [t] else [WithoutCr(t[..i])] + Lines(t[i + 1..])
  }

  lemma {:induction false} IndexOfIs(t: Text, b: byte, i: nat)
    requires i < |t| && t[i] == b && b !in t[..i]
    ensures IndexOf(t, b) == i
  {
    var j := IndexOf(t, b);
    assert forall m :: 0 <= m < i ==> t[..i][m] == t[m];
    assert forall m :: 0 <= m < j ==> t[..j][m] == t[m];
  }

  /** A first line without line feeds or trailing carriage return is itself. */
  lemma {:induction false} FirstLine(line: Text, rest: Text)
    requires LF !in line && CR !in line
    ensures Lines(line + [LF] + rest) == [line] + Lines(rest)
  {
    var t := line + [LF] + rest;
    assert t[..|line|] == line && t[|line| + 1..] == rest;
    IndexOfIs(t, LF, |line|);
  }
}
