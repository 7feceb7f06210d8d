/** UTF-8 as section 4 of RFC 3629 defines it, byte by byte: which bytes may start a character, how many
    follow them, and which of the second bytes the table rules out. */
module Utf8 {
  type Byte = b: int | 0 <= b < 256

  predicate Tail(b: Byte) {
    0x80 <= b <= 0xBF
  }

  predicate Tails(s: seq<Byte>, from: nat, to: nat) {
    to <= |s| && forall i :: from <= i < to ==> Tail(s[i])
  }

  /** The length of the character at the start, or 0 if no well-formed character is there. */
  function CharLength(s: seq<Byte>): (n: nat)
    ensures n <= 4 && n <= |s|
    ensures n > 0 ==> !Tail(s[0]) && forall i :: 1 <= i < n ==> Tail(s[i])
  {
    if s == [] then 0
    else if s[0] <= 0x7F then 1
    else if 0xC2 <= s[0] <= 0xDF && Tails(s, 1, 2) then 2
    else if s[0] == 0xE0 && Tails(s, 1, 3) && 0xA0 <= s[1] then 3
    else if 0xE1 <= s[0] <= 0xEC && Tails(s, 1, 3) then 3
    else if s[0] == 0xED && Tails(s, 1, 3) && s[1] <= 0x9F then 3
    else if 0xEE <= s[0] <= 0xEF && Tails(s, 1, 3) then 3
    else if s[0] == 0xF0 && Tails(s, 1, 4) && 0x90 <= s[1] then 4
    else if 0xF1 <= s[0] <= 0xF3 && Tails(s, 1, 4) then 4
    else if s[0] == 0xF4 && Tails(s, 1, 4) && s[1] <= 0x8F then 4
    else 0
  }

  /** A sequence of well-formed characters. */
  predicate Valid(s: seq<Byte>)
    decreases |s|
  {
    s == [] || (CharLength(s) > 0 && Valid(s[CharLength(s)..]))
  }

  /** Not in the middle of a character, as far as one byte can tell. */
  predicate Boundary(s: seq<Byte>, i: nat) {
    i == 0 || i == |s| || (i < |s| && !Tail(s[i]))
  }

  lemma {:induction false} ValidConcat(a: seq<Byte>, b: seq<Byte>)
    requires Valid(a) && Valid(b)
    ensures Valid(a + b)
    decreases |a|
  {
    if a == [] {
      assert a + b == b;
    } else {
      var n := CharLength(a);
      assert CharLength(a + b) == CharLength(a);
      assert (a + b)[n..] == a[n..] + b;
      ValidConcat(a[n..], b);
    }
  }

  /** A valid text splits into two valid texts at every boundary. */
  lemma {:induction false} ValidSplit(s: seq<Byte>, i: nat)
    requires Valid(s) && i <= |s| && Boundary(s, i)
    ensures Valid(s[..i]) && Valid(s[i..])
    decreases |s|
  {
    hide CharLength;
    if i == 0 {
      assert s[..0] == [] && s[0..] == s;
    } else if i == |s| {
      assert s[..i] == s && s[i..] == [];
    } else {
      var n := CharLength(s);
      assert n <= i;
      var rest := s[n..];
      assert i < |s| ==> rest[i - n] == s[i];
      ValidSplit(rest, i - n);
      assert rest[i - n..] == s[i..] && rest[..i - n] == s[n..i];
      CharacterAlone(s, i);
      assert s[..i][n..] == s[n..i];
    }
  }

  lemma {:induction false} CharacterAlone(s: seq<Byte>, i: nat)
    requires 0 < CharLength(s) <= i <= |s|
    ensures CharLength(s[..i]) == CharLength(s)
  {
    var t := s[..i];
    forall k | 0 <= k < i
      ensures t[k] == s[k]
    {
    }
  }

  /** What follows a valid beginning of a valid text is valid too. */
  lemma {:induction false} ValidRest(a: seq<Byte>, b: seq<Byte>)
    requires Valid(a) && Valid(a + b)
    ensures Valid(b)
    decreases |a|
  {
    hide CharLength;
    if a == [] {
      assert a + b == b;
    } else {
      var n := CharLength(a);
      assert (a + b)[..|a|] == a;
      LongerText(a, b);
      assert (a + b)[n..] == a[n..] + b;
      ValidRest(a[n..], b);
    }
  }

  lemma {:induction false} LongerText(a: seq<Byte>, b: seq<Byte>)
    requires CharLength(a) > 0
    ensures CharLength(a + b) == CharLength(a)
  {
  }

  /** In a valid text the boundaries are exactly the places at which it can be cut into valid texts. */
  lemma {:induction false} BoundaryIff(s: seq<Byte>, i: nat)
    requires Valid(s) && i <= |s|
    ensures Boundary(s, i) <==> Valid(s[..i]) && Valid(s[i..])
    ensures Boundary(s, i) <==> Valid(s[..i])
  {
    hide CharLength;
    if Boundary(s, i) {
      ValidSplit(s, i);
    } else if Valid(s[..i]) {
      assert s[..i] + s[i..] == s;
      ValidRest(s[..i], s[i..]);
      assert s[i..][0] == s[i];
    }
  }

  // ---------------------------------------------------------------- what the bytes encode

  /** A Unicode scalar value: a code point that is no surrogate. */
  predicate Scalar(c: nat) {
    c < 0xD800 || 0xE000 <= c <= 0x10FFFF
  }

  /** The encoding of a scalar value, as section 3 of RFC 3629 gives it: its bits in groups of six, behind a
      first byte that tells how many bytes there are. */
  function Encode(c: nat): (s: seq<Byte>)
    requires Scalar(c)
  {
    if c < 0x80 then [c]
    else if c < 0x800 then [0xC0 + c / 0x40, 0x80 + c % 0x40]
    else if c < 0x10000 then [0xE0 + c / 0x1000, 0x80 + c / 0x40 % 0x40, 0x80 + c % 0x40]
    else [0xF0 + c / 0x40000, 0x80 + c / 0x1000 % 0x40, 0x80 + c / 0x40 % 0x40, 0x80 + c % 0x40]
  }

  function EncodeAll(cs: seq<nat>): seq<Byte>
    requires forall c :: c in cs ==> Scalar(c)
  {
    if cs == [] then [] else Encode(cs[0]) + EncodeAll(cs[1..])
  }

  /** The bits of a byte behind its mark. */
  function Behind(b: int, mark: int): int {
    b - mark
  }

  /** The scalar value a character of `n` bytes stands for. */
  function Decode(s: seq<Byte>, n: nat): int
    requires 1 <= n <= 4 && n <= |s|
  {
    if n == 1 then s[0]
    else if n == 2 then Behind(s[0], 0xC0) * 0x40 + Behind(s[1], 0x80)
    else if n == 3 then Behind(s[0], 0xE0) * 0x1000 + Behind(s[1], 0x80) * 0x40 + Behind(s[2], 0x80)
    else Behind(s[0], 0xF0) * 0x40000 + Behind(s[1], 0x80) * 0x1000 + Behind(s[2], 0x80) * 0x40 + Behind(s[3], 0x80)
  }

  /** Two groups of six bits behind some more. */
  lemma {:induction false} Groups(high: int, middle: int, low: int)
    requires 0 <= high && 0 <= middle < 0x40 && 0 <= low < 0x40
    ensures var c := high * 0x1000 + middle * 0x40 + low;
      c / 0x1000 == high && c / 0x40 % 0x40 == middle && c % 0x40 == low
  {
  }

  lemma {:induction false} TwoBytes(a: Byte, b: Byte)
    requires 0xC2 <= a <= 0xDF && Tail(b)
    ensures var c := Decode([a, b], 2); 0 <= c && Scalar(c) && Encode(c) == [a, b]
  {
  }

  lemma {:induction false} ThreeBytes(a: Byte, b: Byte, c: Byte)
    requires 0xE0 <= a <= 0xEF && Tail(b) && Tail(c) && (a == 0xE0 ==> 0xA0 <= b) && (a == 0xED ==> b <= 0x9F)
    ensures var x := Decode([a, b, c], 3); 0 <= x && Scalar(x) && Encode(x) == [a, b, c]
  {
    var x := Decode([a, b, c], 3);
    Groups(Behind(a, 0xE0), Behind(b, 0x80), Behind(c, 0x80));
    assert 0x800 <= x < 0x10000;
    assert Scalar(x);
  }

  lemma {:induction false} FourBytes(a: Byte, b: Byte, c: Byte, d: Byte)
    requires 0xF0 <= a <= 0xF4 && Tail(b) && Tail(c) && Tail(d) && (a == 0xF0 ==> 0x90 <= b) && (a == 0xF4 ==> b <= 0x8F)
    ensures var x := Decode([a, b, c, d], 4); 0 <= x && Scalar(x) && Encode(x) == [a, b, c, d]
  {
    var x := Decode([a, b, c, d], 4);
    var high := Behind(a, 0xF0) * 0x40 + Behind(b, 0x80);
    Groups(high, Behind(c, 0x80), Behind(d, 0x80));
    assert x == high * 0x1000 + Behind(c, 0x80) * 0x40 + Behind(d, 0x80);
    assert high / 0x40 == Behind(a, 0xF0) && high % 0x40 == Behind(b, 0x80);
    assert 0x10000 <= x <= 0x10FFFF;
    assert x / 0x40000 == x / 0x1000 / 0x40;
  }

  /** A well-formed character is the encoding of one scalar value. */
  lemma {:induction false} CharacterIsEncoding(s: seq<Byte>)
    requires CharLength(s) > 0
    ensures var n := CharLength(s); var c := Decode(s, n); 0 <= c && Scalar(c) && Encode(c) == s[..n]
  {
    hide Encode, Scalar;
    var n := CharLength(s);
    if n == 1 {
      OneByte(s[0]);
      assert s[..1] == [s[0]];
    } else if n == 2 {
      TwoBytes(s[0], s[1]);
      assert s[..2] == [s[0], s[1]];
    } else if n == 3 {
      ThreeBytes(s[0], s[1], s[2]);
      assert s[..3] == [s[0], s[1], s[2]];
    } else {
      FourBytes(s[0], s[1], s[2], s[3]);
      assert s[..4] == [s[0], s[1], s[2], s[3]];
    }
  }

  lemma {:induction false} OneByte(a: Byte)
    requires a <= 0x7F
    ensures Scalar(a) && Encode(a) == [a]
  {
  }

  /** And every encoding is a well-formed character, whatever follows it. */
  lemma {:induction false} EncodingIsCharacter(c: nat, rest: seq<Byte>)
    requires Scalar(c)
    ensures CharLength(Encode(c) + rest) == |Encode(c)|
  {
    var s := Encode(c) + rest;
    assert forall i :: 0 <= i < |Encode(c)| ==> s[i] == Encode(c)[i];
    if c >= 0x800 {
      SplitBits(c);
    }
  }

  lemma {:induction false} SplitBits(c: nat)
    requires 0x800 <= c <= 0x10FFFF
    ensures c < 0x10000 ==> c == (c / 0x1000) * 0x1000 + (c / 0x40 % 0x40) * 0x40 + c % 0x40
    ensures c == (c / 0x40000) * 0x40000 + (c / 0x1000 % 0x40) * 0x1000 + (c / 0x40 % 0x40) * 0x40 + c % 0x40
  {
    assert c == (c / 0x40) * 0x40 + c % 0x40;
    assert c / 0x40 == (c / 0x40 / 0x40) * 0x40 + c / 0x40 % 0x40;
    assert c / 0x40 / 0x40 == c / 0x1000;
    assert c / 0x1000 == (c / 0x1000 / 0x40) * 0x40 + c / 0x1000 % 0x40;
    assert c / 0x1000 / 0x40 == c / 0x40000;
  }

  /** Valid texts are the encodings of sequences of scalar values. */
  lemma {:induction false} ValidIffEncoded(s: seq<Byte>)
    ensures Valid(s) <==> exists cs: seq<nat> :: (forall c :: c in cs ==> Scalar(c)) && EncodeAll(cs) == s
  {
    if Valid(s) {
      var cs := Decoded(s);
    }
    if cs: seq<nat> :| (forall c :: c in cs ==> Scalar(c)) && EncodeAll(cs) == s {
      EncodedIsValid(cs);
    }
  }

  lemma {:induction false} Decoded(s: seq<Byte>) returns (cs: seq<nat>)
    requires Valid(s)
    ensures (forall c :: c in cs ==> Scalar(c)) && EncodeAll(cs) == s
    decreases |s|
  {
    hide CharLength, Encode, Decode, Scalar;
    if s == [] {
      cs := [];
    } else {
      var n := CharLength(s);
      CharacterIsEncoding(s);
      var rest := Decoded(s[n..]);
      cs := [Decode(s, n)] + rest;
      assert cs[1..] == rest;
      assert s == s[..n] + s[n..];
    }
  }

  lemma {:induction false} EncodedIsValid(cs: seq<nat>)
    requires forall c :: c in cs ==> Scalar(c)
    ensures Valid(EncodeAll(cs))
  {
    if cs != [] {
      EncodedIsValid(cs[1..]);
      EncodingIsCharacter(cs[0], EncodeAll(cs[1..]));
      var s := EncodeAll(cs);
      assert s[|Encode(cs[0])|..] == EncodeAll(cs[1..]);
    }
  }
}
