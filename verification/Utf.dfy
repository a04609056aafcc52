/**
 The UTF-8 encoder `convertUTF82Hex` and the decoder `Utf8ArrayToStr`.
 Strings are sequences of UTF-16 code units; masks and shifts are written as
 division and remainder.
 */
module Utf {
  import opened Digits
  import opened HexDigits
  import HexText

  type Units = seq<nat>
  type Bytes = seq<nat>

  predicate IsUnits(s: Units) { forall i | 0 <= i < |s| :: s[i] < 0x1_0000 }

  predicate High(u: nat) { 0xD800 <= u <= 0xDBFF }
  predicate Low(u: nat) { 0xDC00 <= u <= 0xDFFF }

  // ---- what the text means: a sequence of code points (section 2.2 of RFC 2781) ----

  /** A unit that is no surrogate, or a pair of them; false for an unpaired surrogate. */
  predicate WellFormed(s: Units) {
    if s == [] then true
    else if |s| > 1 && High(s[0]) && Low(s[1]) then WellFormed(s[2..])
    else !High(s[0]) && !Low(s[0]) && WellFormed(s[1..])
  }

  function CodePoint(h: nat, l: nat): nat
    requires High(h) && Low(l)
  {
    (h - 0xD800) * 0x400 + (l - 0xDC00) + 0x1_0000
  }

  function CodePoints(s: Units): seq<nat> {
    if s == [] then []
    else if |s| > 1 && High(s[0]) && Low(s[1]) then [CodePoint(s[0], s[1])] + CodePoints(s[2..])
    else [s[0]] + CodePoints(s[1..])
  }

  /** The text without its surrogate pairs. */
  function WithoutPairs(s: Units): Units {
    if s == [] then []
    else if |s| > 1 && High(s[0]) && Low(s[1]) then WithoutPairs(s[2..])
    else [s[0]] + WithoutPairs(s[1..])
  }

  predicate Scalar(x: nat) { x < 0x11_0000 && !(0xD800 <= x <= 0xDFFF) }

  // ---- the encoder ----

  /** The bytes of one code point, as the branches of the encoder compute them. */
  function Encoded(x: nat): (b: Bytes)
    ensures b != []
  {
    if x < 0x80 then [x]
    else if x < 0x800 then [x / 0x40 % 0x20 + 0xC0, x % 0x40 + 0x80]
    else if x < 0x1_0000 then [x / 0x1000 % 0x10 + 0xE0, x / 0x40 % 0x40 + 0x80, x % 0x40 + 0x80]
    else [x / 0x4_0000 % 8 + 0xF0, x / 0x1000 % 0x40 + 0x80, x / 0x40 % 0x40 + 0x80, x % 0x40 + 0x80]
  }

  function EncodedAll(xs: seq<nat>): Bytes {
    if xs == [] then [] else Encoded(xs[0]) + EncodedAll(xs[1..])
  }

  datatype Result = Ok(hex: string) | InvalidUtf

  /** Hex text of a byte string. */
  function Hex(b: Bytes): string
    requires Digital(256, b)
  {
    NibblesDenote(b);
    Text(Nibbles(b))
  }

  /** `hexchar`: two digits for a byte. */
  method HexChar(x: nat) returns (d: string)
    requires x < 256
    ensures d == Hex([x])
  {
    var h := Text(Minimal(x));
    assert Nibbles([x]) == [x / 16, x % 16] by { assert [x][..0] == []; }
    HexText.BytePadded(x);
    d := "";
    if |h| == 1 {
      d := d + "0";
      assert HexText.Fill('0', 1) == "0";
    } else {
      assert |Minimal(x)| == 2 && HexText.Fill('0', 0) == "";
    }
    d := d + h;
  }

  lemma {:induction false} NibblesAppend(a: Bytes, b: Bytes)
    ensures Nibbles(a + b) == Nibbles(a) + Nibbles(b)
  {
    if b == [] {
      assert a + b == a;
    } else {
      assert (a + b)[..|a + b| - 1] == a + b[..|b| - 1];
      NibblesAppend(a, b[..|b| - 1]);
    }
  }

  lemma HexAppend(a: Bytes, b: Bytes)
    requires Digital(256, a) && Digital(256, b)
    ensures Digital(256, a + b) && Hex(a + b) == Hex(a) + Hex(b)
  {
    NibblesAppend(a, b);
    NibblesDenote(a);
    NibblesDenote(b);
  }

  lemma HexOf2(a: nat, b: nat)
    requires a < 256 && b < 256
    ensures Hex([a, b]) == Hex([a]) + Hex([b])
  {
    HexAppend([a], [b]);
    assert [a] + [b] == [a, b];
  }

  lemma HexOf3(a: nat, b: nat, c: nat)
    requires a < 256 && b < 256 && c < 256
    ensures Hex([a, b, c]) == Hex([a]) + Hex([b]) + Hex([c])
  {
    HexOf2(a, b);
    HexAppend([a, b], [c]);
    assert [a, b] + [c] == [a, b, c];
  }

  lemma HexOf4(a: nat, b: nat, c: nat, d: nat)
    requires a < 256 && b < 256 && c < 256 && d < 256
    ensures Hex([a, b, c, d]) == Hex([a]) + Hex([b]) + Hex([c]) + Hex([d])
  {
    HexOf3(a, b, c);
    HexAppend([a, b, c], [d]);
    assert [a, b, c] + [d] == [a, b, c, d];
  }

  lemma EncodedBytes(x: nat)
    requires Scalar(x)
    ensures Digital(256, Encoded(x))
  {
  }

  /** The hex text of one code point, branch by branch. */
  method PointToHex(x: nat) returns (r: string)
    requires Scalar(x)
    ensures Digital(256, Encoded(x)) && r == Hex(Encoded(x))
  {
    EncodedBytes(x);
    if x < 0x80 {
      r := HexChar(x);
      return;
    }
    var last := HexChar(x % 0x40 + 0x80);
    if x < 0x800 {
      r := HexChar(x / 0x40 % 0x20 + 0xC0);
      HexOf2(x / 0x40 % 0x20 + 0xC0, x % 0x40 + 0x80);
    } else if x < 0x1_0000 {
      r := HexChar(x / 0x1000 % 0x10 + 0xE0);
      var second := HexChar(x / 0x40 % 0x40 + 0x80);
      r := r + second;
      HexOf3(x / 0x1000 % 0x10 + 0xE0, x / 0x40 % 0x40 + 0x80, x % 0x40 + 0x80);
    } else {
      r := HexChar(x / 0x4_0000 % 8 + 0xF0);
      var second := HexChar(x / 0x1000 % 0x40 + 0x80);
      var third := HexChar(x / 0x40 % 0x40 + 0x80);
      r := r + second + third;
      HexOf4(x / 0x4_0000 % 8 + 0xF0, x / 0x1000 % 0x40 + 0x80, x / 0x40 % 0x40 + 0x80, x % 0x40 + 0x80);
    }
    r := r + last;
  }

  function Bytes8(s: Units): Bytes { EncodedAll(CodePoints(s)) }

  lemma {:induction false} EncodedAllBytes(xs: seq<nat>)
    requires forall x | x in xs :: Scalar(x)
    ensures Digital(256, EncodedAll(xs))
  {
    if xs != [] {
      EncodedBytes(xs[0]);
      EncodedAllBytes(xs[1..]);
    }
  }

  lemma {:induction false} PointsAreScalar(s: Units)
    requires IsUnits(s) && WellFormed(s)
    ensures forall x | x in CodePoints(s) :: Scalar(x)
  {
    if s != [] {
      if |s| > 1 && High(s[0]) && Low(s[1]) { PointsAreScalar(s[2..]); } else { PointsAreScalar(s[1..]); }
    }
  }

  lemma BytesOfText(s: Units)
    requires IsUnits(s) && WellFormed(s)
    ensures Digital(256, Bytes8(s))
  {
    PointsAreScalar(s);
    EncodedAllBytes(CodePoints(s));
  }

  /** What the encoder still has to produce, or that it will throw. */
  ghost predicate Rest(s: Units, done: string, r: Result) {
    && (WellFormed(s) ==> Digital(256, Bytes8(s)) && r == Ok(done + Hex(Bytes8(s))))
    && (!WellFormed(s) ==> r == InvalidUtf)
  }

  /** One code point moves from the text to the output. */
  lemma PointDone(s: Units, done: string, n: nat, x: nat, r: Result)
    requires IsUnits(s) && n <= |s| && Scalar(x) && Digital(256, Encoded(x))
    requires WellFormed(s) <==> WellFormed(s[n..])
    requires WellFormed(s) ==> CodePoints(s) == [x] + CodePoints(s[n..])
    ensures Rest(s[n..], done + Hex(Encoded(x)), r) ==> Rest(s, done, r)
  {
    if WellFormed(s) {
      assert Bytes8(s) == Encoded(x) + Bytes8(s[n..]) by {
        assert ([x] + CodePoints(s[n..]))[1..] == CodePoints(s[n..]);
      }
      BytesOfText(s[n..]);
      HexAppend(Encoded(x), Bytes8(s[n..]));
      assert done + Hex(Encoded(x)) + Hex(Bytes8(s[n..])) == done + (Hex(Encoded(x)) + Hex(Bytes8(s[n..])));
    }
  }

  /**
   `convertUTF82Hex`: throws exactly if there is an unpaired surrogate;
   otherwise two hex digits for every byte of the UTF-8 form.
   */
  method ToUtf8Hex(val: Units) returns (r: Result)
    requires IsUnits(val)
    ensures WellFormed(val) ==> Digital(256, Bytes8(val)) && r == Ok(Hex(Bytes8(val)))
    ensures !WellFormed(val) ==> r == InvalidUtf
  {
    var text, i := "", 0;
    while i < |val|
      invariant 0 <= i <= |val|
      invariant forall r :: Rest(val[i..], text, r) ==> Rest(val, "", r)
      decreases |val| - i
    {
      var x, n := val[i], 1;
      ghost var s := val[i..];
      if High(x) && i + 1 < |val| && Low(val[i + 1]) {
        x := (x % 0x400) * 0x400 + val[i + 1] % 0x400 + 0x1_0000;
        n := 2;
        assert x == CodePoint(s[0], s[1]);
      }
      if 0xD800 <= x <= 0xDFFF {
        assert !WellFormed(s);
        assert Rest(s, text, InvalidUtf);
        return InvalidUtf;
      }
      var h := PointToHex(x);
      forall r | Rest(s[n..], text + h, r) ensures Rest(val, "", r) { PointDone(s, text, n, x, r); }
      text, i := text + h, i + n;
      assert val[i..] == s[n..];
    }
    r := Ok(text);
    assert val[i..] == [];
    assert Rest([], text, r);
  }
}
