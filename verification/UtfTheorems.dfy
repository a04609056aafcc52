/** The encoder against the UTF-8 grammar, and the decoder against the encoder. */
module UtfTheorems {
  import opened Utf

  // ---- the grammar in section 4 of RFC 3629 ----

  predicate Tail(b: Bytes, i: nat) { i < |b| && 0x80 <= b[i] <= 0xBF }

  predicate One(b: Bytes) { b != [] && b[0] <= 0x7F }
  predicate Two(b: Bytes) { b != [] && 0xC2 <= b[0] <= 0xDF && Tail(b, 1) }

  predicate Three(b: Bytes) {
    && b != [] && 0xE0 <= b[0] <= 0xEF && Tail(b, 1) && Tail(b, 2)
    && (b[0] == 0xE0 ==> b[1] >= 0xA0) && (b[0] == 0xED ==> b[1] <= 0x9F)
  }

  predicate Four(b: Bytes) {
    && b != [] && 0xF0 <= b[0] <= 0xF4 && Tail(b, 1) && Tail(b, 2) && Tail(b, 3)
    && (b[0] == 0xF0 ==> b[1] >= 0x90) && (b[0] == 0xF4 ==> b[1] <= 0x8F)
  }

  function CharLength(b: Bytes): nat {
    if One(b) then 1 else if Two(b) then 2 else if Three(b) then 3 else if Four(b) then 4 else 0
  }

  predicate Utf8(b: Bytes) {
    b == [] || (CharLength(b) > 0 && Utf8(b[CharLength(b)..]))
  }

  /** The code point a UTF-8 character stands for. */
  function Point(b: Bytes): nat
    requires CharLength(b) > 0
  {
    if One(b) then b[0]
    else if Two(b) then (b[0] - 0xC0) * 0x40 + (b[1] - 0x80)
    else if Three(b) then (b[0] - 0xE0) * 0x1000 + (b[1] - 0x80) * 0x40 + (b[2] - 0x80)
    else (b[0] - 0xF0) * 0x4_0000 + (b[1] - 0x80) * 0x1000 + (b[2] - 0x80) * 0x40 + (b[3] - 0x80)
  }

  function Points(b: Bytes): seq<nat>
    requires Utf8(b)
  {
    if b == [] then [] else [Point(b)] + Points(b[CharLength(b)..])
  }

  /** Six-bit groups of a number, taken apart ... */
  lemma Groups(x: nat)
    ensures x == x / 0x40 * 0x40 + x % 0x40
    ensures x / 0x1000 == x / 0x40 / 0x40 && x / 0x4_0000 == x / 0x1000 / 0x40
    ensures x == x / 0x1000 * 0x1000 + x / 0x40 % 0x40 * 0x40 + x % 0x40
    ensures x == x / 0x4_0000 * 0x4_0000 + x / 0x1000 % 0x40 * 0x1000 + x / 0x40 % 0x40 * 0x40 + x % 0x40
  {
  }

  /** ... and put together. */
  lemma Grouped(a: nat, b: nat, c: nat, d: nat)
    requires b < 0x40 && c < 0x40 && d < 0x40
    ensures
      var x := a * 0x4_0000 + b * 0x1000 + c * 0x40 + d;
      x / 0x4_0000 == a && x / 0x1000 == a * 0x40 + b && x / 0x1000 % 0x40 == b && x / 0x40 % 0x40 == c && x % 0x40 == d
  {
  }

  lemma TwoBytes(x: nat)
    requires 0x80 <= x < 0x800
    ensures x / 0x40 % 0x20 == x / 0x40 && 2 <= x / 0x40 < 0x20
  {
  }

  lemma ThreeBytes(x: nat)
    requires 0x800 <= x < 0x1_0000
    ensures x / 0x1000 % 0x10 == x / 0x1000 < 0x10
    ensures x / 0x1000 == 0 ==> x / 0x40 % 0x40 >= 0x20
    ensures !(0xD800 <= x <= 0xDFFF) && x / 0x1000 == 0xD ==> x / 0x40 % 0x40 < 0x20
  {
  }

  lemma FourBytes(x: nat)
    requires 0x1_0000 <= x < 0x11_0000
    ensures x / 0x4_0000 % 8 == x / 0x4_0000 < 5
    ensures x / 0x4_0000 == 0 ==> x / 0x1000 % 0x40 >= 0x10
    ensures x / 0x4_0000 == 4 ==> x / 0x1000 % 0x40 < 0x10
  {
  }

  predicate Stands(b: Bytes, n: nat, x: nat) { CharLength(b) == n && n > 0 && Point(b) == x }

  lemma StandsTwo(a: nat, b: nat)
    requires 2 <= a < 0x20 && b < 0x40
    ensures Stands([a + 0xC0, b + 0x80], 2, a * 0x40 + b)
  {
  }

  lemma StandsThree(a: nat, b: nat, c: nat)
    requires a < 0x10 && b < 0x40 && c < 0x40 && (a == 0 ==> b >= 0x20) && (a == 0xD ==> b < 0x20)
    ensures Stands([a + 0xE0, b + 0x80, c + 0x80], 3, a * 0x1000 + b * 0x40 + c)
  {
  }

  lemma StandsFour(a: nat, b: nat, c: nat, d: nat)
    requires a < 5 && b < 0x40 && c < 0x40 && d < 0x40 && (a == 0 ==> b >= 0x10) && (a == 4 ==> b < 0x10)
    ensures Stands([a + 0xF0, b + 0x80, c + 0x80, d + 0x80], 4, a * 0x4_0000 + b * 0x1000 + c * 0x40 + d)
  {
  }

  lemma TwoByteForm(x: nat)
    requires 0x80 <= x < 0x800
    ensures Encoded(x) == [x / 0x40 + 0xC0, x % 0x40 + 0x80]
  {
    TwoBytes(x);
  }

  lemma ThreeByteForm(x: nat)
    requires 0x800 <= x < 0x1_0000
    ensures Encoded(x) == [x / 0x1000 + 0xE0, x / 0x40 % 0x40 + 0x80, x % 0x40 + 0x80]
  {
    ThreeBytes(x);
  }

  lemma FourByteForm(x: nat)
    requires 0x1_0000 <= x < 0x11_0000
    ensures Encoded(x) == [x / 0x4_0000 + 0xF0, x / 0x1000 % 0x40 + 0x80, x / 0x40 % 0x40 + 0x80, x % 0x40 + 0x80]
  {
    FourBytes(x);
  }

  /** The encoding of a scalar value is one character of the grammar, and stands for that value. */
  lemma EncodedIsChar(x: nat)
    requires Scalar(x)
    ensures Stands(Encoded(x), |Encoded(x)|, x)
  {
    Groups(x);
    if x < 0x80 {
    } else if x < 0x800 {
      TwoByteForm(x);
      TwoBytes(x);
      StandsTwo(x / 0x40, x % 0x40);
    } else if x < 0x1_0000 {
      ThreeByteForm(x);
      ThreeBytes(x);
      StandsThree(x / 0x1000, x / 0x40 % 0x40, x % 0x40);
    } else {
      FourByteForm(x);
      FourBytes(x);
      StandsFour(x / 0x4_0000, x / 0x1000 % 0x40, x / 0x40 % 0x40, x % 0x40);
    }
  }

  lemma CharPrefix(e: Bytes, rest: Bytes)
    requires CharLength(e) == |e| > 0
    ensures CharLength(e + rest) == |e| && Point(e + rest) == Point(e) && (e + rest)[|e|..] == rest
  {
    var b := e + rest;
    assert b[0] == e[0] && (|e| > 1 ==> b[1] == e[1]) && (|e| > 2 ==> b[2] == e[2]) && (|e| > 3 ==> b[3] == e[3]);
  }

  lemma EncodedTwo(a: nat, b: nat)
    requires 2 <= a < 0x20 && b < 0x40
    ensures var x := a * 0x40 + b; 0x80 <= x < 0x800 && Encoded(x) == [a + 0xC0, b + 0x80]
  {
    Grouped(0, 0, a, b);
  }

  lemma EncodedThree(a: nat, b: nat, c: nat)
    requires a < 0x10 && b < 0x40 && c < 0x40 && (a == 0 ==> b >= 0x20) && (a == 0xD ==> b < 0x20)
    ensures
      var x := a * 0x1000 + b * 0x40 + c;
      0x800 <= x < 0x1_0000 && Scalar(x) && Encoded(x) == [a + 0xE0, b + 0x80, c + 0x80]
  {
    Grouped(0, a, b, c);
  }

  lemma EncodedFour(a: nat, b: nat, c: nat, d: nat)
    requires a < 5 && b < 0x40 && c < 0x40 && d < 0x40 && (a == 0 ==> b >= 0x10) && (a == 4 ==> b < 0x10)
    ensures
      var x := a * 0x4_0000 + b * 0x1000 + c * 0x40 + d;
      0x1_0000 <= x < 0x11_0000 && Encoded(x) == [a + 0xF0, b + 0x80, c + 0x80, d + 0x80]
  {
    Grouped(a, b, c, d);
  }

  lemma EncodedOfPoint(b: Bytes)
    requires CharLength(b) > 0
    ensures Scalar(Point(b)) && Encoded(Point(b)) == b[..CharLength(b)]
  {
    if One(b) {
    } else if Two(b) {
      EncodedTwo(b[0] - 0xC0, b[1] - 0x80);
    } else if Three(b) {
      EncodedThree(b[0] - 0xE0, b[1] - 0x80, b[2] - 0x80);
    } else {
      EncodedFour(b[0] - 0xF0, b[1] - 0x80, b[2] - 0x80, b[3] - 0x80);
    }
  }

  /** Encoded code points are in the grammar, and the grammar gives them back. */
  lemma {:induction false} EncodedIsUtf8(xs: seq<nat>)
    requires forall x | x in xs :: Scalar(x)
    ensures Utf8(EncodedAll(xs)) && Points(EncodedAll(xs)) == xs
  {
    if xs != [] {
      EncodedIsUtf8(xs[1..]);
      EncodedIsChar(xs[0]);
      CharPrefix(Encoded(xs[0]), EncodedAll(xs[1..]));
    }
  }

  lemma {:induction false} Utf8IsEncoded(b: Bytes)
    requires Utf8(b)
    ensures EncodedAll(Points(b)) == b && forall x | x in Points(b) :: Scalar(x)
  {
    if b != [] {
      EncodedOfPoint(b);
      Utf8IsEncoded(b[CharLength(b)..]);
      assert b == b[..CharLength(b)] + b[CharLength(b)..];
    }
  }

  // ---- UTF-16 and code points ----

  function Unit16(x: nat): Units {
    if x < 0x1_0000 then [x] else [0xD800 + (x - 0x1_0000) / 0x400, 0xDC00 + (x - 0x1_0000) % 0x400]
  }

  function Text16(xs: seq<nat>): Units {
    if xs == [] then [] else Unit16(xs[0]) + Text16(xs[1..])
  }

  lemma {:induction false} TextOfPoints(s: Units)
    requires IsUnits(s) && WellFormed(s)
    ensures Text16(CodePoints(s)) == s
  {
    if s != [] {
      var n := if |s| > 1 && High(s[0]) && Low(s[1]) then 2 else 1;
      TextOfPoints(s[n..]);
      assert s == s[..n] + s[n..];
      assert CodePoints(s)[1..] == CodePoints(s[n..]);
      assert Unit16(CodePoints(s)[0]) == s[..n];
    }
  }

  lemma {:induction false} PointsOfText(xs: seq<nat>)
    requires forall x | x in xs :: Scalar(x)
    ensures IsUnits(Text16(xs)) && WellFormed(Text16(xs)) && CodePoints(Text16(xs)) == xs
  {
    if xs != [] {
      var s, u := Text16(xs), Unit16(xs[0]);
      PointsOfText(xs[1..]);
      assert Scalar(xs[0]) by { assert xs[0] in xs; }
      assert s[|u|..] == Text16(xs[1..]) && s[0] == u[0];
      if xs[0] >= 0x1_0000 {
        assert s[1] == u[1];
        assert CodePoint(s[0], s[1]) == xs[0];
      }
    }
  }

  /** The encoder is injective, and its image is exactly the UTF-8 grammar. */
  lemma EncoderIsUtf8(s: Units)
    requires IsUnits(s) && WellFormed(s)
    ensures Utf8(Bytes8(s)) && Text16(Points(Bytes8(s))) == s
  {
    PointsAreScalar(s);
    EncodedIsUtf8(CodePoints(s));
    TextOfPoints(s);
  }

  lemma EveryUtf8IsEncoded(b: Bytes)
    requires Utf8(b)
    ensures
      var s := Text16(Points(b));
      IsUnits(s) && WellFormed(s) && Bytes8(s) == b
  {
    Utf8IsEncoded(b);
    PointsOfText(Points(b));
  }

  // ---- the decoder ----

  /** array[i], where reading past the end counts as 0 in the bit operations. */
  function At(b: Bytes, i: nat): nat { if i < |b| then b[i] else 0 }

  function Drop(b: Bytes, n: nat): (r: Bytes)
    ensures |r| == if n <= |b| then |b| - n else 0
  {
    if n <= |b| then b[n..] else []
  }

  /** The character the decoder makes of the bytes from position i on. */
  function CharAt(b: Bytes, i: nat): Units
    requires i < |b|
  {
    var c := b[i];
    if c < 0x80 then [c]
    else if 0xC0 <= c < 0xE0 then [c % 0x20 * 0x40 + At(b, i + 1) % 0x40]
    else if 0xE0 <= c < 0xF0 then [c % 0x10 * 0x1000 + At(b, i + 1) % 0x40 * 0x40 + At(b, i + 2) % 0x40]
    else []
  }

  function Consumed(c: nat): (n: nat)
    ensures n > 0
  {
    if 0xC0 <= c < 0xE0 then 2 else if 0xE0 <= c < 0xF0 then 3 else 1
  }

  function Decoded(b: Bytes): Units
    decreases |b|
  {
    if b == [] then [] else CharAt(b, 0) + Decoded(Drop(b, Consumed(b[0])))
  }

  /** `Utf8ArrayToStr` */
  method Utf8ArrayToStr(bytes: Bytes) returns (out: Units)
    ensures out == Decoded(bytes)
  {
    var i := 0;
    out := [];
    while i < |bytes|
      invariant 0 <= i
      invariant out + Decoded(Drop(bytes, i)) == Decoded(bytes)
      decreases |bytes| - i
    {
      ghost var before, start := out, i;
      var c := bytes[i];
      i := i + 1;
      if c < 0x80 {
        out := out + [c];
      } else if 0xC0 <= c < 0xE0 {
        var char2 := At(bytes, i);
        i := i + 1;
        out := out + [c % 0x20 * 0x40 + char2 % 0x40];
      } else if 0xE0 <= c < 0xF0 {
        var char2, char3 := At(bytes, i), At(bytes, i + 1);
        i := i + 2;
        out := out + [c % 0x10 * 0x1000 + char2 % 0x40 * 0x40 + char3 % 0x40];
      }
      assert i == start + Consumed(c);
      assert out == before + CharAt(bytes, start);
      DecodeOne(bytes, start, before, Decoded(bytes));
    }
  }

  lemma Regroup(out: Units, rest: Units, first: Units, tail: Units)
    requires rest == first + tail
    ensures out + rest == out + first + tail
  {
  }

  lemma {:induction false} DecodeFirst(b: Bytes, i: nat)
    requires i < |b|
    ensures Decoded(Drop(b, i)) == CharAt(b, i) + Decoded(Drop(b, i + Consumed(b[i])))
  {
    var rest := Drop(b, i);
    assert rest[0] == b[i] && At(rest, 1) == At(b, i + 1) && At(rest, 2) == At(b, i + 2);
    assert CharAt(rest, 0) == CharAt(b, i);
    DropDrop(b, i, Consumed(b[i]));
  }

  lemma {:induction false} DecodeOne(b: Bytes, i: nat, out: Units, all: Units)
    requires i < |b| && out + Decoded(Drop(b, i)) == all
    ensures out + CharAt(b, i) + Decoded(Drop(b, i + Consumed(b[i]))) == all
  {
    DecodeFirst(b, i);
    Regroup(out, Decoded(Drop(b, i)), CharAt(b, i), Decoded(Drop(b, i + Consumed(b[i]))));
  }

  lemma DropDrop(b: Bytes, m: nat, n: nat)
    ensures Drop(Drop(b, m), n) == Drop(b, m + n)
  {
  }

  /** The decoder skips the four bytes of a code point beyond the basic plane, and inverts all others. */
  lemma DecodePoint(x: nat, rest: Bytes)
    requires Scalar(x)
    ensures Decoded(Encoded(x) + rest) == (if x < 0x1_0000 then [x] else []) + Decoded(rest)
  {
    var e := Encoded(x);
    var b := e + rest;
    assert b[|e|..] == rest;
    if x < 0x1_0000 {
      CharOfEncoded(x, rest);
    } else {
      assert b[1..] == e[1..] + rest && b[2..] == e[2..] + rest && b[3..] == e[3..] + rest;
      SkipByte(b);
      SkipByte(b[1..]);
      SkipByte(b[2..]);
      SkipByte(b[3..]);
    }
  }

  lemma {:induction false} SkipByte(b: Bytes)
    requires b != [] && (0x80 <= b[0] < 0xC0 || b[0] >= 0xF0)
    ensures Decoded(b) == Decoded(b[1..])
  {
    assert CharAt(b, 0) == [] && Drop(b, 1) == b[1..];
    assert CharAt(b, 0) + Decoded(b[1..]) == Decoded(b[1..]);
  }

  lemma DecodedTwo(a: nat, b: nat, rest: Bytes)
    requires a < 0x20 && b < 0x40
    ensures CharAt([a + 0xC0, b + 0x80] + rest, 0) == [a * 0x40 + b]
  {
    var all := [a + 0xC0, b + 0x80] + rest;
    assert all[0] == a + 0xC0 && At(all, 1) == b + 0x80;
  }

  lemma DecodedThree(a: nat, b: nat, c: nat, rest: Bytes)
    requires a < 0x10 && b < 0x40 && c < 0x40
    ensures CharAt([a + 0xE0, b + 0x80, c + 0x80] + rest, 0) == [a * 0x1000 + b * 0x40 + c]
  {
    var all := [a + 0xE0, b + 0x80, c + 0x80] + rest;
    assert all[0] == a + 0xE0 && At(all, 1) == b + 0x80 && At(all, 2) == c + 0x80;
  }

  lemma CharOfEncoded(x: nat, rest: Bytes)
    requires Scalar(x) && x < 0x1_0000
    ensures var b := Encoded(x) + rest; CharAt(b, 0) == [x] && Consumed(b[0]) == |Encoded(x)|
  {
    Groups(x);
    if x < 0x80 {
    } else if x < 0x800 {
      TwoByteForm(x);
      TwoBytes(x);
      DecodedTwo(x / 0x40, x % 0x40, rest);
    } else {
      ThreeByteForm(x);
      ThreeBytes(x);
      DecodedThree(x / 0x1000, x / 0x40 % 0x40, x % 0x40, rest);
    }
  }

  /** Decoding the encoded text gives the text with exactly its surrogate pairs removed. */
  lemma {:induction false} DecodeEncoded(s: Units)
    requires IsUnits(s) && WellFormed(s)
    ensures Decoded(Bytes8(s)) == WithoutPairs(s)
  {
    if s != [] {
      var n := if |s| > 1 && High(s[0]) && Low(s[1]) then 2 else 1;
      DecodeEncoded(s[n..]);
      assert CodePoints(s)[1..] == CodePoints(s[n..]);
      PointsAreScalar(s);
      assert CodePoints(s)[0] in CodePoints(s);
      DecodePoint(CodePoints(s)[0], Bytes8(s[n..]));
    }
  }

  /** So the text comes back exactly if it has no character beyond the basic plane. */
  lemma {:induction false} PairsRemoved(s: Units)
    requires IsUnits(s) && WellFormed(s)
    ensures |WithoutPairs(s)| <= |s|
    ensures WithoutPairs(s) == s <==> forall i | 0 <= i < |s| :: !High(s[i])
  {
    if s != [] {
      if |s| > 1 && High(s[0]) && Low(s[1]) {
        PairsRemoved(s[2..]);
      } else {
        PairsRemoved(s[1..]);
        assert s == [s[0]] + s[1..];
        assert WithoutPairs(s)[1..] == WithoutPairs(s[1..]);
      }
    }
  }

  lemma RoundTripExactlyOnBasicPlane(s: Units)
    requires IsUnits(s) && WellFormed(s)
    ensures Decoded(Bytes8(s)) == s <==> forall i | 0 <= i < |s| :: !High(s[i])
  {
    DecodeEncoded(s);
    PairsRemoved(s);
  }

  /** One character beyond the basic plane, encoded and decoded, is gone. */
  lemma PairIsLost()
    ensures
      var s := [0xD83D, 0xDE00];
      IsUnits(s) && WellFormed(s) && Bytes8(s) == [0xF0, 0x9F, 0x98, 0x80] && Decoded(Bytes8(s)) == []
  {
    var s := [0xD83D, 0xDE00];
    assert s[2..] == [];
    assert CodePoints(s) == [0x1F600];
    assert EncodedAll([0x1F600]) == Encoded(0x1F600) + EncodedAll([]);
    DecodeEncoded(s);
  }

  /** A lead byte at the end is completed by zero bits. */
  lemma TruncatedReadsZeros(c: nat, d: nat)
    requires d < 256
    ensures 0xC0 <= c < 0xE0 ==> Decoded([c]) == [(c - 0xC0) * 0x40]
    ensures 0xE0 <= c < 0xF0 ==> Decoded([c]) == [(c - 0xE0) * 0x1000]
    ensures 0xE0 <= c < 0xF0 ==> Decoded([c, d]) == [(c - 0xE0) * 0x1000 + d % 0x40 * 0x40]
  {
    assert Drop([c], Consumed(c)) == [] && Drop([c, d], if c < 0xE0 then 1 else Consumed(c))[..0] == [];
    if 0xE0 <= c < 0xF0 { assert Drop([c, d], 3) == []; }
    assert At([c], 1) == 0 && At([c], 2) == 0 && At([c, d], 1) == d && At([c, d], 2) == 0;
  }
}
