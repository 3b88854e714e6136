/** UTF-8 text as encoded characters, section 3 of RFC 3629. */
module Characters {
  import opened Bytes

  predicate Scalar(c: nat) {
    c <= 0x10FFFF && !(0xD800 <= c <= 0xDFFF)
  }

  function Encode(c: nat): (t: Text)
    requires Scalar(c)
    ensures 1 <= |t| <= 4
  {
    if c <= 0x7F then [c as byte]
    else if c <= 0x7FF then [(0xC0 + c / 64) as byte, (0x80 + c % 64) as byte]
    else if c <= 0xFFFF then [(0xE0 + c / 4096) as byte, (0x80 + c / 64 % 64) as byte, (0x80 + c % 64) as byte]
    else [(0xF0 + c / 262144) as byte, (0x80 + c / 4096 % 64) as byte, (0x80 + c / 64 % 64) as byte, (0x80 + c % 64) as byte]
  }

  function Encoded(characters: seq<nat>): Text
    requires forall i :: 0 <= i < |characters| ==> Scalar(characters[i])
  {
    if characters == [] then [] else Encode(characters[0]) + Encoded(characters[1..])
  }

  /** Every encoding is recognised as one character. */
  lemma {:induction false} EncodingIsOneCharacter(c: nat, rest: Text)
    requires Scalar(c)
    ensures CharLength(Encode(c) + rest) == |Encode(c)|
  {
    var e := Encode(c);
    assert CharLength(e) == |e|;
    FirstCharacter(e, rest);
  }

  lemma {:induction false} TwoBytes(t: Text) returns (c: nat)
    requires CharLength(t) == 2
    ensures |t| >= 2 && Scalar(c) && Encode(c) == t[..2]
  {
    c := (t[0] as int - 0xC0) * 64 + (t[1] as int - 0x80);
    assert c / 64 == t[0] as int - 0xC0 && c % 64 == t[1] as int - 0x80;
  }

  lemma {:induction false} ThreeBytes(t: Text) returns (c: nat)
    requires CharLength(t) == 3
    ensures |t| >= 3 && Scalar(c) && Encode(c) == t[..3]
  {
    var high, middle, low := t[0] as int - 0xE0, t[1] as int - 0x80, t[2] as int - 0x80;
    c := high * 4096 + middle * 64 + low;
    assert c / 64 == high * 64 + middle;
    assert c / 4096 == high;
  }

  lemma {:induction false} FourBytes(t: Text) returns (c: nat)
    requires CharLength(t) == 4
    ensures |t| >= 4 && Scalar(c) && Encode(c) == t[..4]
  {
    var first, second, third, fourth := t[0] as int - 0xF0, t[1] as int - 0x80, t[2] as int - 0x80, t[3] as int - 0x80;
    c := first * 262144 + second * 4096 + third * 64 + fourth;
    assert c / 64 == first * 4096 + second * 64 + third;
    assert c / 4096 == first * 64 + second;
    assert c / 262144 == first;
  }

  /** Every character that is recognised is an encoding: no overlong form, no surrogate. */
  lemma {:induction false} CharacterIsEncoded(t: Text) returns (c: nat)
    requires CharLength(t) > 0
    ensures CharLength(t) <= |t| && Scalar(c) && Encode(c) == t[..CharLength(t)]
  {
    if CharLength(t) == 1 {
      c := t[0] as int;
    } else if CharLength(t) == 2 {
      c := TwoBytes(t);
    } else if CharLength(t) == 3 {
      c := ThreeBytes(t);
    } else {
      c := FourBytes(t);
    }
  }

  lemma {:induction false} EncodedIsUtf8(characters: seq<nat>)
    requires forall i :: 0 <= i < |characters| ==> Scalar(characters[i])
    ensures Utf8(Encoded(characters))
  {
    if characters != [] {
      var e, rest := Encode(characters[0]), Encoded(characters[1..]);
      EncodedIsUtf8(characters[1..]);
      EncodingIsOneCharacter(characters[0], rest);
      assert (e + rest)[|e|..] == rest;
    }
  }

  lemma {:induction false} OneCharacterMore(c: nat, others: seq<nat>)
    requires Scalar(c) && forall i :: 0 <= i < |others| ==> Scalar(others[i])
    ensures forall i :: 0 <= i < |[c] + others| ==> Scalar(([c] + others)[i])
    ensures Encoded([c] + others) == Encode(c) + Encoded(others)
  {
    assert ([c] + others)[1..] == others;
  }

  lemma {:induction false} Utf8IsEncoded(t: Text) returns (characters: seq<nat>)
    requires Utf8(t)
    ensures forall i :: 0 <= i < |characters| ==> Scalar(characters[i])
    ensures Encoded(characters) == t
    decreases |t|
  {
    if t == [] {
      characters := [];
    } else {
      var c := CharacterIsEncoded(t);
      var others := Utf8IsEncoded(t[CharLength(t)..]);
      characters := [c] + others;
      OneCharacterMore(c, others);
      assert t == t[..CharLength(t)] + t[CharLength(t)..];
    }
  }

  /** Text is what characters encode to, and nothing else. */
  lemma {:induction false} Utf8Iff(t: Text)
    ensures Utf8(t) <==> exists characters: seq<nat> ::
              (forall i :: 0 <= i < |characters| ==> Scalar(characters[i])) && Encoded(characters) == t
  {
    if Utf8(t) {
      var characters := Utf8IsEncoded(t);
    }
    forall characters: seq<nat> | (forall i :: 0 <= i < |characters| ==> Scalar(characters[i])) && Encoded(characters) == t
      ensures Utf8(t)
    {
      EncodedIsUtf8(characters);
    }
  }
}
