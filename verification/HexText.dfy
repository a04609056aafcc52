/** The hex conversions of the JavaScript binding: `toHex`, `padStart`, `toUint8Array`, `toMinHex`. */
module HexText {
  import opened Digits
  import opened HexDigits

  /** A hex text, or an exception. */
  datatype Outcome = Ok(hex: string) | Invalid

  function Max(a: int, b: int): int { if a < b then b else a }

  function Fill(c: char, n: int): string { seq(Max(n, 0), _ => c) }

  method PadStart(val: string, minLength: nat, fill: char) returns (r: string)
    ensures r == Fill(fill, minLength - |val|) + val
  {
    r := val;
    while |r| < minLength
      invariant |val| <= |r| <= Max(minLength, |val|) && r == Fill(fill, |r| - |val|) + val
      decreases minLength - |r|
    {
      r := [fill] + r;
      assert Fill(fill, |r| - |val|) == [fill] + Fill(fill, |r| - 1 - |val|);
    }
  }

  // ---- two's complement, nibble by nibble ----

  datatype Complemented = Complemented(digits: seq<nat>, carry: bool)

  /** What the carry makes of digits `ds`, the last one first. */
  function Complement(ds: seq<nat>): (r: Complemented)
    requires Digital(16, ds)
    ensures |r.digits| == |ds| && Digital(16, r.digits)
  {
    if ds == [] then Complemented([], false)
    else
      var Complemented(rest, o) := Complement(ds[1..]);
      if !o && ds[0] == 0 then Complemented([0] + rest, false)
      else Complemented([16 - ds[0] - (if o then 1 else 0)] + rest, true)
  }

  /** Complementing subtracts from the power of 16, unless all digits are zero. */
  lemma {:induction false} ComplementDenotes(ds: seq<nat>)
    requires Digital(16, ds)
    ensures
      var r := Complement(ds);
      && (r.carry <==> Value(16, ds) > 0)
      && Value(16, r.digits) == if r.carry then Pow(16, |ds|) - Value(16, ds) else 0
  {
    if ds != [] {
      var tail := ds[1..];
      ComplementDenotes(tail);
      var r, rest := Complement(ds), Complement(tail).digits;
      assert ds == [ds[0]] + tail && r.digits == [r.digits[0]] + rest;
      ValueAppend(16, [ds[0]], tail);
      ValueAppend(16, [r.digits[0]], rest);
      assert Value(16, [ds[0]]) == ds[0] && Value(16, [r.digits[0]]) == r.digits[0];
      ComplementDigit(ds[0], Value(16, tail), Pow(16, |tail|), Complement(tail).carry, r.digits[0], Value(16, rest));
      assert Pow(16, |ds|) == 16 * Pow(16, |tail|);
    }
  }

  lemma {:induction false} ComplementDigit(d: nat, v: nat, p: nat, o: bool, x: nat, w: int)
    requires d < 16 && p > 0 && (o <==> v > 0)
    requires x == NextDigit(d, if o then 1 else 0) && w == if o then p - v else 0
    ensures d * p + v > 0 <==> o || d > 0
    ensures x * p + w == if o || d > 0 then 16 * p - (d * p + v) else 0
  {
    if o {
      assert (15 - d) * p == 15 * p - d * p;
    } else if d > 0 {
      assert (16 - d) * p == 16 * p - d * p;
    }
    Monotone(1, p, d);
  }

  function Fs(n: nat): (r: seq<nat>)
    ensures |r| == n && forall k | 0 <= k < n :: r[k] == 15
  {
    if n == 0 then [] else Fs(n - 1) + [15]
  }

  lemma {:induction false} AllFs(n: nat)
    ensures Value(16, Fs(n)) == Pow(16, n) - 1
  {
    if n > 0 {
      AllFs(n - 1);
      assert Fs(n)[..n - 1] == Fs(n - 1);
    }
  }

  /** Padding with f sign-extends. */
  lemma {:induction false} SignExtended(n: nat, ds: seq<nat>)
    ensures Value(16, Fs(n) + ds) == Pow(16, n + |ds|) - Pow(16, |ds|) + Value(16, ds)
  {
    ValueAppend(16, Fs(n), ds);
    AllFs(n);
    PowAdd(16, n, |ds|);
    OneLess(Pow(16, n), Pow(16, |ds|));
  }

  lemma {:induction false} OneLess(a: int, p: int)
    ensures (a - 1) * p == a * p - p
  {
  }

  /** How many digits `toHex` gives a negative number of k digits. */
  function Width(k: nat, bytes: nat): nat { Max(k, 2 * (if bytes == 0 then 32 else bytes)) }

  /** The digits of the number, last one first, from position 1 on; position 0 stays a hole. */
  method ReadDigits(hex: string) returns (n: array<nat>)
    requires |hex| > 1 && hex[0] == '-' && IsHex(hex[1..])
    ensures fresh(n) && n.Length == |hex|
    ensures forall k | 1 <= k < |hex| :: n[k] == DigitsOf(hex[1..])[|hex| - 1 - k]
  {
    n := new nat[|hex|];
    for i := |hex| downto 1
      invariant forall k | 1 <= k <= |hex| - i && k < |hex| :: n[k] == DigitsOf(hex[1..])[|hex| - 1 - k]
    {
      assert hex[i] == hex[1..][i - 1];
      n[|hex| - i] := DigitOf(hex[i]);
    }
  }

  function NextDigit(d: nat, o: nat): (x: nat)
    requires d < 16 && o < 2
    ensures x < 16
  {
    if o == 0 && d == 0 then 0 else 16 - d - o
  }

  /** One turn of the carry takes in one digit more on the left. */
  lemma {:induction false} ComplementStep(ds: seq<nat>, k: nat)
    requires Digital(16, ds) && 0 < k <= |ds|
    ensures
      var r, r' := Complement(ds[k..]), Complement(ds[k - 1..]);
      var o := if r.carry then 1 else 0;
      && r'.digits == [NextDigit(ds[k - 1], o)] + r.digits
      && (r'.carry <==> !(o == 0 && ds[k - 1] == 0))
      && Text(r'.digits) == [DigitChar(NextDigit(ds[k - 1], o))] + Text(r.digits)
  {
    assert ds[k - 1..][1..] == ds[k..];
  }

  /** `n.map(...)` with its carry, reversed and joined. */
  method ComplementText(n: array<nat>, ghost ds: seq<nat>) returns (out: string)
    requires Digital(16, ds) && n.Length == |ds| + 1 && forall k | 1 <= k <= |ds| :: n[k] == ds[|ds| - k]
    ensures out == Text(Complement(ds).digits)
  {
    var o: nat := 0;
    out := "";
    for j := 1 to n.Length
      invariant o == (if Complement(ds[|ds| - (j - 1)..]).carry then 1 else 0)
      invariant out == Text(Complement(ds[|ds| - (j - 1)..]).digits)
    {
      ComplementStep(ds, |ds| - (j - 1));
      var d := n[j];
      out := [DigitChar(NextDigit(d, o))] + out;
      if !(o == 0 && d == 0) {
        o := 1;
      }
    }
    assert ds[0..] == ds;
  }

  /**
   The branch for hex texts that start with '-': the digits, filled up with f,
   denote 16^w minus the number; w is the requested width or that of the number.
   That is the two's complement exactly if the number is not zero, or fills the width.
   */
  method Negative(hex: string, bytes: nat) returns (r: string)
    requires |hex| > 1 && hex[0] == '-' && IsHex(hex[1..])
    ensures IsLowerHex(r) && |r| == Width(|hex| - 1, bytes)
    ensures
      var v := HexValue(hex[1..]);
      HexValue(r) == Pow(16, |r|) - if v > 0 then v else Pow(16, |hex| - 1)
    ensures
      var v := HexValue(hex[1..]);
      HexValue(r) == (Pow(16, |r|) - v) % Pow(16, |r|) <==> v > 0 || |r| == |hex| - 1
  {
    ghost var ds := DigitsOf(hex[1..]);
    var n := ReadDigits(hex);
    var out := ComplementText(n, ds);
    r := PadStart(out, (if bytes == 0 then 32 else bytes) * 2, 'f');
    NegativeText(ds, |r| - |out|, r);
    ValueBound(16, ds);
    ComplementOfZero(Value(16, ds), |ds|, |r|);
  }

  lemma {:induction false} PowIncreases(k: nat, w: nat)
    requires k < w
    ensures Pow(16, k) < Pow(16, w)
  {
    PowAdd(16, k, w - k);
    assert Pow(16, w - k) == 16 * Pow(16, w - k - 1);
    Monotone(2, Pow(16, w - k), Pow(16, k));
  }

  lemma {:induction false} ComplementOfZero(v: nat, k: nat, w: nat)
    requires v < Pow(16, k) && k <= w
    ensures
      Pow(16, w) - (if v > 0 then v else Pow(16, k)) == (Pow(16, w) - v) % Pow(16, w) <==> v > 0 || k == w
  {
    if k < w { PowIncreases(k, w); }
    if v > 0 {
      SmallResidue(Pow(16, w), Pow(16, w) - v);
    } else {
      Residue(Pow(16, w), 1, Pow(16, w), 0);
    }
  }

  /** The text "-0" in one byte: 0xf0, not zero. */
  method NegativeZero() returns (r: string)
    ensures |r| == 2 && IsLowerHex(r) && HexValue(r) == 0xf0
  {
    assert "-0"[1..] == "0" && IsHex("0") && DigitsOf("0") == [0] && Value(16, [0]) == 0;
    assert Pow(16, 1) == 16 && Pow(16, 2) == 256;
    r := Negative("-0", 1);
  }

  lemma {:induction false} PaddedText(ds: seq<nat>, n: nat)
    requires Digital(16, ds)
    ensures Digital(16, Fs(n) + ds) && Fill('f', n) + Text(ds) == Text(Fs(n) + ds)
  {
    assert DigitChar(15) == 'f';
  }

  lemma {:induction false} NegativeDenotes(ds: seq<nat>, n: nat)
    requires Digital(16, ds)
    ensures Value(16, Fs(n) + Complement(ds).digits) ==
            Pow(16, n + |ds|) - if Value(16, ds) > 0 then Value(16, ds) else Pow(16, |ds|)
  {
    ComplementDenotes(ds);
    SignExtended(n, Complement(ds).digits);
  }

  lemma {:induction false} NegativeText(ds: seq<nat>, n: nat, r: string)
    requires Digital(16, ds) && r == Fill('f', n) + Text(Complement(ds).digits)
    ensures IsLowerHex(r) && |r| == n + |ds|
    ensures HexValue(r) == Pow(16, |r|) - if Value(16, ds) > 0 then Value(16, ds) else Pow(16, |ds|)
  {
    PaddedText(Complement(ds).digits, n);
    TextIsHex(Fs(n) + Complement(ds).digits);
    NegativeDenotes(ds, n);
  }

  /** A numeral longer than n digits without leading zeros reaches 16^n. */
  lemma {:induction false} LongNumeral(ds: seq<nat>, n: nat)
    ensures |ds| > n && ds[0] > 0 ==> Value(16, ds) >= Pow(16, n)
  {
    if |ds| > n && ds[0] > 0 {
      LeadingDigit(16, ds);
      PowAdd(16, n, |ds| - 1 - n);
      Monotone(1, Pow(16, |ds| - 1 - n), Pow(16, n));
    }
  }

  /** A number below 256^bytes has at most two digits a byte. */
  lemma {:induction false} FitsWidth(v: nat, bytes: nat)
    requires 0 < v < Pow(256, bytes)
    ensures |Minimal(v)| <= 2 * bytes && Pow(256, bytes) == Pow(16, 2 * bytes)
  {
    PowSquared(bytes);
    MinimalDenotes(v);
    LongNumeral(Minimal(v), 2 * bytes);
  }

  lemma {:induction false} PowSquared(n: nat)
    ensures Pow(256, n) == Pow(16, 2 * n)
  {
    if n > 0 {
      PowSquared(n - 1);
      assert Pow(16, 2 * n) == 16 * (16 * Pow(16, 2 * n - 2));
    }
  }

  // ---- the end of toHex ----

  /** The padding with zeros, the even length and the prefix. */
  method Finished(hex: string, bytes: nat) returns (r: string)
    requires IsHex(hex)
    ensures |r| >= 2 && r[..2] == "0x" && IsLowerHex(r[2..]) && HexValue(r[2..]) == HexValue(hex)
    ensures |r| - 2 == Even(Max(|hex|, 2 * bytes))
  {
    var h := hex;
    if bytes > 0 {
      h := PadStart(h, bytes * 2, '0');
    }
    assert |h| == Max(|hex|, 2 * bytes);
    if |h| % 2 == 1 {
      h := ['0'] + h;
    }
    assert |h| == Even(Max(|hex|, 2 * bytes));
    assert h == Fill('0', |h| - |hex|) + hex;
    ZeroPadded(hex, |h| - |hex|);
    LoweredHex(h);
    r := "0x" + Lowered(h);
    assert r[2..] == Lowered(h);
  }

  function Even(n: nat): (r: nat)
    ensures r % 2 == 0 && n <= r <= n + 1
  {
    if n % 2 == 1 then n + 1 else n
  }

  /** `toHex` from the point where `hex` holds the digits, with or without a sign. */
  method ToHex(hex: string, bytes: nat) returns (r: string)
    requires IsHex(hex) || (|hex| > 1 && hex[0] == '-' && IsHex(hex[1..]))
    ensures |r| >= 2 && r[..2] == "0x" && IsLowerHex(r[2..])
    ensures IsHex(hex) ==> HexValue(r[2..]) == HexValue(hex) && |r| - 2 == Even(Max(|hex|, 2 * bytes))
    ensures !IsHex(hex) ==>
              var v, w := HexValue(hex[1..]), Width(|hex| - 1, bytes);
              && HexValue(r[2..]) == Pow(16, w) - (if v > 0 then v else Pow(16, |hex| - 1))
              && |r| - 2 == Even(w)
  {
    if |hex| > 0 && hex[0] == '-' {
      var h := Negative(hex, bytes);
      r := Finished(h, bytes);
    } else {
      r := Finished(hex, bytes);
    }
  }

  lemma {:induction false} ZeroPadded(s: string, z: nat)
    requires IsHex(s)
    ensures IsHex(Fill('0', z) + s) && HexValue(Fill('0', z) + s) == HexValue(s)
  {
    assert DigitsOf(Fill('0', z) + s) == Zeros(z) + DigitsOf(s);
    LeadingZeros(16, z, DigitsOf(s));
  }

  lemma {:induction false} LoweredHex(s: string)
    requires IsHex(s)
    ensures IsLowerHex(Lowered(s)) && DigitsOf(Lowered(s)) == DigitsOf(s)
  {
  }

  /**
   For every n > 0 and 0 < v < 256^n, toHex(-v, n) has two digits a byte and
   denotes 256^n - v; without a length, n is 32.
   */
  method ToHexOfNegative(v: nat, bytes: nat, ghost n: nat) returns (r: string)
    requires n > 0 && (bytes == n || (bytes == 0 && n == 32)) && 0 < v < Pow(256, n)
    ensures |r| == 2 + 2 * n && r[..2] == "0x" && IsLowerHex(r[2..])
    ensures HexValue(r[2..]) == Pow(256, n) - v
  {
    FitsWidth(v, n);
    MinimalDenotes(v);
    TextIsHex(Minimal(v));
    var hex := "-" + Text(Minimal(v));
    assert hex[1..] == Text(Minimal(v));
    assert !IsHex(hex) by { assert !IsHexChar(hex[0]); }
    NegativeWidth(|hex| - 1, bytes, n);
    r := ToHex(hex, bytes);
  }

  lemma {:induction false} NegativeWidth(k: nat, bytes: nat, n: nat)
    requires k <= 2 * n && (bytes == n || (bytes == 0 && n == 32)) && n > 0
    ensures Width(k, bytes) == 2 * n && Even(2 * n) == 2 * n
  {
  }

  // ---- bytes to hex and back ----

  lemma {:induction false} BytePadded(b: nat)
    requires b < 256
    ensures Fill('0', 2 - |Minimal(b)|) + Text(Minimal(b)) == Text([b / 16, b % 16])
  {
    assert b / 16 < 16;
    if b < 16 {
      assert Fill('0', 1) == "0" && LOWER[0] == '0';
    } else {
      assert Minimal(b) == [b / 16, b % 16];
    }
  }

  /** The branch of `toHex` for byte arrays; an empty one has no branch, and `toHex` throws. */
  method BytesToHex(bytes: seq<nat>) returns (r: Outcome)
    requires Digital(256, bytes)
    ensures r == Invalid <==> bytes == []
    ensures r.Ok? ==> |r.hex| == 2 * |bytes| && IsLowerHex(r.hex)
    ensures r.Ok? ==> DigitsOf(r.hex) == Nibbles(bytes) && HexValue(r.hex) == Value(256, bytes)
  {
    if |bytes| == 0 {
      return Invalid;
    }
    var hex := "";
    for i := 0 to |bytes|
      invariant Digital(16, Nibbles(bytes[..i])) && hex == Text(Nibbles(bytes[..i]))
    {
      BytePadded(bytes[i]);
      var two := PadStart(Text(Minimal(bytes[i])), 2, '0');
      assert bytes[..i + 1][..i] == bytes[..i];
      NibblesDenote(bytes[..i + 1]);
      hex := hex + two;
    }
    assert bytes[..|bytes|] == bytes;
    NibblesDenote(bytes);
    TextIsHex(Nibbles(bytes));
    return Ok(hex);
  }

  /** parseInt('0x' + c + d) stored into a byte; what is not a number becomes 0. */
  function ParsePair(c: char, d: char): nat {
    if !IsHexChar(c) then 0
    else if !IsHexChar(d) then DigitOf(c)
    else DigitOf(c) * 16 + DigitOf(d)
  }

  function FixLength(hex: string): string { if |hex| % 2 == 1 then "0" + hex else hex }

  /** `toUint8Array` on the digits after "0x", whatever they are. */
  method HexToBytes(digits: string) returns (bytes: seq<nat>)
    ensures |bytes| == (|digits| + 1) / 2
    ensures forall i | 0 <= i < |bytes| ::
              bytes[i] == ParsePair(FixLength(digits)[2 * i], FixLength(digits)[2 * i + 1])
    ensures IsHex(digits) ==> Digital(256, bytes) && Value(256, bytes) == HexValue(digits)
  {
    var val := FixLength(digits);
    var b := new nat[|val| / 2];
    for i := 0 to b.Length
      invariant forall j | 0 <= j < i :: b[j] == ParsePair(val[2 * j], val[2 * j + 1])
    {
      b[i] := ParsePair(val[2 * i], val[2 * i + 1]);
    }
    bytes := b[..];
    if IsHex(digits) {
      FixedDenotes(digits);
      PairsAreNibbles(val, bytes);
      NibblesDenote(bytes);
    }
  }

  lemma {:induction false} FixedDenotes(digits: string)
    requires IsHex(digits)
    ensures IsHex(FixLength(digits)) && HexValue(FixLength(digits)) == HexValue(digits)
  {
    ZeroPadded(digits, 1);
    assert Fill('0', 1) == "0";
  }

  lemma {:induction false} PairsAreNibbles(val: string, bytes: seq<nat>)
    requires IsHex(val) && |val| == 2 * |bytes|
    requires forall i | 0 <= i < |bytes| :: bytes[i] == ParsePair(val[2 * i], val[2 * i + 1])
    ensures Digital(256, bytes) && Nibbles(bytes) == DigitsOf(val)
    decreases |bytes|
  {
    if bytes != [] {
      var n := |bytes| - 1;
      PairsAreNibbles(val[..2 * n], bytes[..n]);
      PairIsByte(val[2 * n], val[2 * n + 1]);
      assert DigitsOf(val) == DigitsOf(val[..2 * n]) + [DigitOf(val[2 * n]), DigitOf(val[2 * n + 1])];
    }
  }

  lemma {:induction false} PairIsByte(c: char, d: char)
    requires IsHexChar(c) && IsHexChar(d)
    ensures var b := ParsePair(c, d); b < 256 && b / 16 == DigitOf(c) && b % 16 == DigitOf(d)
  {
  }

  /** A pair that does not start with a digit counts as 0, and one that does not end with one as its first digit. */
  lemma {:induction false} BrokenPairs()
    ensures ParsePair('g', '1') == 0 && ParsePair('b', 'g') == 11 && ParsePair('b', '7') == 183
  {
  }

  /** Byte i of a pairwise reading against nibbles 2i and 2i+1. */
  lemma {:induction false} NibbleAt(bytes: seq<nat>, i: nat)
    requires Digital(256, bytes) && i < |bytes|
    ensures |Nibbles(bytes)| == 2 * |bytes|
    ensures Nibbles(bytes)[2 * i] == bytes[i] / 16 && Nibbles(bytes)[2 * i + 1] == bytes[i] % 16
  {
    NibblesDenote(bytes);
    NibblesDenote(bytes[..|bytes| - 1]);
    if i < |bytes| - 1 { NibbleAt(bytes[..|bytes| - 1], i); }
  }

  lemma {:induction false} ReadBack(bytes: seq<nat>, hex: string, i: nat)
    requires Digital(256, bytes) && i < |bytes| && IsHex(hex) && DigitsOf(hex) == Nibbles(bytes)
    ensures |hex| == 2 * |bytes| && ParsePair(hex[2 * i], hex[2 * i + 1]) == bytes[i]
  {
    NibbleAt(bytes, i);
    assert DigitOf(hex[2 * i]) == DigitsOf(hex)[2 * i];
    assert DigitOf(hex[2 * i + 1]) == DigitsOf(hex)[2 * i + 1];
  }

  /** toUint8Array(toHex(b)) is b exactly if b is not empty; for an empty array `toHex` throws. */
  method BytesRoundTrip(bytes: seq<nat>) returns (r: Outcome, back: seq<nat>)
    requires Digital(256, bytes)
    ensures r == Invalid <==> bytes == []
    ensures r.Ok? ==> |r.hex| == 2 + 2 * |bytes| && r.hex[..2] == "0x" && back == bytes
  {
    var printed := BytesToHex(bytes);
    if printed.Invalid? {
      return Invalid, [];
    }
    var hex := ToHex(printed.hex, 0);
    assert hex[2..] == printed.hex by {
      TextOfDigits(printed.hex);
      TextOfDigits(hex[2..]);
      SameLength(16, DigitsOf(hex[2..]), DigitsOf(printed.hex));
    }
    r := Ok(hex);
    back := HexToBytes(hex[2..]);
    forall i | 0 <= i < |bytes| ensures back[i] == bytes[i] { ReadBack(bytes, printed.hex, i); }
  }

  // ---- padding and cutting byte arrays ----

  /**
   The last part of `toUint8Array`: a positive length pads or cuts on the left,
   so a nonempty value becomes its residue; an empty one stays empty.
   */
  method Resize(val: seq<nat>, len: int) returns (r: seq<nat>)
    requires Digital(256, val)
    ensures len > 0 && val != [] ==> |r| == len && Value(256, r) == Value(256, val) % Pow(256, len)
    ensures len > 0 && val == [] ==> r == []
    ensures len > 0 ==> (|r| == len <==> val != [])
    ensures len <= 0 ==> r == (if len == 0 && val == [0] then [] else val) && Value(256, r) == Value(256, val)
    ensures Digital(256, r)
  {
    if len == 0 && |val| == 1 && val[0] == 0 {
      assert Value(256, val) == 0;
      return [];
    }
    if len > 0 && |val| > 0 && |val| != len {
      if |val| > len {
        CutValue(val, len);
        return val[|val| - len..];
      }
      var b := new nat[len](_ => 0);
      for i := 0 to |val|
        invariant forall j | 0 <= j < len ::
                    b[j] == if len - |val| <= j < len - |val| + i then val[j - (len - |val|)] else 0
      {
        b[len - |val| + i] := val[i];
      }
      assert b[..] == Zeros(len - |val|) + val;
      PadValue(val, len);
      return b[..];
    }
    if len > 0 && |val| == len { PadValue(val, len); assert Zeros(0) + val == val; }
    return val;
  }

  /** Asked for one byte, an empty value stays empty. */
  method EmptyStaysEmpty() returns (r: seq<nat>)
    ensures |r| != 1
  {
    r := Resize([], 1);
  }

  lemma {:induction false} CutSum(base: nat, high: seq<nat>, low: seq<nat>)
    requires base > 0 && Digital(base, high) && Digital(base, low)
    ensures Value(base, high + low) == Value(base, high) * Pow(base, |low|) + Value(base, low)
    ensures Value(base, low) < Pow(base, |low|)
  {
    ValueAppend(base, high, low);
    ValueBound(base, low);
  }

  lemma {:induction false} CutValue(val: seq<nat>, len: nat)
    requires Digital(256, val) && len <= |val|
    ensures Value(256, val[|val| - len..]) == Value(256, val) % Pow(256, len)
  {
    var high, low := val[..|val| - len], val[|val| - len..];
    assert val == high + low;
    CutSum(256, high, low);
    Residue(Value(256, val), Value(256, high), Pow(256, len), Value(256, low));
  }

  lemma {:induction false} PadBound(val: seq<nat>, len: nat)
    requires Digital(256, val) && |val| <= len
    ensures Value(256, Zeros(len - |val|) + val) == Value(256, val) < Pow(256, len)
  {
    var all := Zeros(len - |val|) + val;
    LeadingZeros(256, len - |val|, val);
    assert Digital(256, all) && |all| == len;
    ValueBound(256, all);
  }

  lemma {:induction false} PadValue(val: seq<nat>, len: nat)
    requires Digital(256, val) && |val| <= len
    ensures Value(256, Zeros(len - |val|) + val) == Value(256, val) % Pow(256, len)
  {
    PadBound(val, len);
    SmallResidue(Pow(256, len), Value(256, val));
  }

  lemma {:induction false} SmallResidue(p: nat, r: nat)
    requires r < p
    ensures r % p == r
  {
  }

  lemma {:induction false} Residue(n: nat, q: nat, p: nat, r: nat)
    requires r < p && n == q * p + r
    ensures r == n % p
  {
    UniqueDivision(p, q, r, n / p, n % p);
  }

  // ---- toMinHex ----

  /** The digits after "0x" without leading zeros; "0x0" if there are no others. */
  function MinHex(digits: string): string {
    if digits == "" then "0x0"
    else if digits[0] != '0' then "0x" + digits
    else MinHex(digits[1..])
  }

  /** What `trim` removes: the white space and line ends of ECMAScript. */
  predicate IsSpace(c: char) {
    var x := c as int;
    9 <= x <= 13 || x in {0x20, 0xA0, 0x1680, 0x2028, 0x2029, 0x202F, 0x205F, 0x3000, 0xFEFF} || 0x2000 <= x <= 0x200A
  }

  function Trimmed(s: string): string {
    if s != "" && IsSpace(s[0]) then Trimmed(s[1..])
    else if s != "" && IsSpace(s[|s| - 1]) then Trimmed(s[..|s| - 1])
    else s
  }

  predicate AllSpace(s: string) { forall i | 0 <= i < |s| :: IsSpace(s[i]) }

  /** Text t with white space before and after it. */
  ghost predicate Framed(s: string, t: string) {
    exists a, b :: AllSpace(a) && AllSpace(b) && s == a + t + b
  }

  lemma {:induction false} FramedLeft(c: char, s: string, t: string)
    requires Framed(s, t) && IsSpace(c)
    ensures Framed([c] + s, t)
  {
    var a, b :| AllSpace(a) && AllSpace(b) && s == a + t + b;
    assert AllSpace([c] + a) && [c] + s == ([c] + a) + t + b;
  }

  lemma {:induction false} FramedRight(s: string, c: char, t: string)
    requires Framed(s, t) && IsSpace(c)
    ensures Framed(s + [c], t)
  {
    var a, b :| AllSpace(a) && AllSpace(b) && s == a + t + b;
    assert AllSpace(b + [c]) && s + [c] == a + t + (b + [c]);
  }

  lemma {:induction false} TrimmedFramed(s: string)
    ensures Framed(s, Trimmed(s))
    decreases |s|
  {
    if s != "" && IsSpace(s[0]) {
      TrimmedFramed(s[1..]);
      FramedLeft(s[0], s[1..], Trimmed(s));
      assert s == [s[0]] + s[1..];
    } else if s != "" && IsSpace(s[|s| - 1]) {
      TrimmedFramed(s[..|s| - 1]);
      FramedRight(s[..|s| - 1], s[|s| - 1], Trimmed(s));
      assert s == s[..|s| - 1] + [s[|s| - 1]];
    } else {
      assert AllSpace("") && s == "" + s + "";
    }
  }

  lemma {:induction false} TrimmedEnds(s: string)
    ensures Trimmed(s) != "" ==> !IsSpace(Trimmed(s)[0]) && !IsSpace(Trimmed(s)[|Trimmed(s)| - 1])
    decreases |s|
  {
    if s != "" && IsSpace(s[0]) {
      TrimmedEnds(s[1..]);
    } else if s != "" && IsSpace(s[|s| - 1]) {
      TrimmedEnds(s[..|s| - 1]);
    }
  }

  /** Trimming takes white space off both ends, nothing else, and all of it. */
  lemma {:induction false} TrimmedIs(s: string)
    ensures Framed(s, Trimmed(s))
    ensures Trimmed(s) != "" ==> !IsSpace(Trimmed(s)[0]) && !IsSpace(Trimmed(s)[|Trimmed(s)| - 1])
  {
    TrimmedFramed(s);
    TrimmedEnds(s);
  }

  /**
   `toMinHex` of a text.  One that does not start with "0x" is replaced by
   `converted`, which is what `toHex` makes of it; the rest is refused unless
   "0x" and at least one more character are left after trimming.
   */
  method ToMinHex(text: string, converted: Outcome) returns (r: Outcome)
    ensures
      if !("0x" <= text) && converted.Invalid? then r == Invalid
      else
        var key := Trimmed(if "0x" <= text then text else converted.hex);
        r == if "0x" < key then Ok(MinHex(key[2..])) else Invalid
  {
    var key := text;
    if !("0x" <= text) {
      if converted.Invalid? {
        return Invalid;
      }
      key := converted.hex;
    }
    key := Trimmed(key);
    if |key| < 3 || key[0] != '0' || key[1] != 'x' {
      return Invalid;
    }
    for i := 2 to |key|
      invariant MinHex(key[2..]) == MinHex(key[i..])
    {
      if key[i] != '0' {
        return Ok("0x" + key[i..]);
      }
      assert key[i..][1..] == key[i + 1..];
    }
    return Ok("0x0");
  }

  /** The minimal form is "0x" and the digits without leading zeros, or "0x0". */
  lemma {:induction false} MinHexIs(digits: string)
    requires IsLowerHex(digits)
    ensures
      var ds := Stripped(DigitsOf(digits));
      Digital(16, ds) && MinHex(digits) == "0x" + if ds == [] then "0" else Text(ds)
  {
    StrippedDenotes(DigitsOf(digits));
    if digits != "" {
      DigitOfChar(digits[0]);
      CharOfDigit(DigitOf(digits[0]));
      if digits[0] == '0' {
        assert DigitsOf(digits)[1..] == DigitsOf(digits[1..]);
        MinHexIs(digits[1..]);
      } else {
        assert DigitOf(digits[0]) != 0 by { assert DigitChar(0) == '0'; }
        TextOfDigits(digits);
      }
    }
  }

  /** Two lower-case hex texts have the same minimal form exactly if they denote the same number. */
  lemma {:induction false} MinHexCanonical(a: string, b: string)
    requires IsLowerHex(a) && IsLowerHex(b)
    ensures MinHex(a) == MinHex(b) <==> HexValue(a) == HexValue(b)
  {
    MinHexIs(a);
    MinHexIs(b);
    var x, y := Stripped(DigitsOf(a)), Stripped(DigitsOf(b));
    StrippedUnique(DigitsOf(a), DigitsOf(b));
    StrippedDenotes(DigitsOf(a));
    StrippedDenotes(DigitsOf(b));
    MinTextInjective(x, y);
  }

  lemma {:induction false} MinTextInjective(x: seq<nat>, y: seq<nat>)
    requires Digital(16, x) && Digital(16, y) && (x == [] || x[0] > 0) && (y == [] || y[0] > 0)
    ensures ("0x" + if x == [] then "0" else Text(x)) == ("0x" + if y == [] then "0" else Text(y)) ==> x == y
  {
    var s, t := if x == [] then "0" else Text(x), if y == [] then "0" else Text(y);
    if "0x" + s == "0x" + t {
      assert ("0x" + s)[2..] == s && ("0x" + t)[2..] == t;
      TextIsHex(x);
      TextIsHex(y);
      assert x != [] ==> DigitOf(s[0]) == x[0];
      assert y != [] ==> DigitOf(t[0]) == y[0];
      assert DigitOf('0') == 0;
    }
  }
}
