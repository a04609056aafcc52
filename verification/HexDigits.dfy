/** Hex digits as characters, and numerals as text. */
module HexDigits {
  import opened Digits

  const LOWER := "0123456789abcdef"

  function DigitChar(d: nat): char
    requires d < 16
  {
    LOWER[d]
  }

  predicate IsHexChar(c: char) {
    '0' <= c <= '9' || 'a' <= c <= 'f' || 'A' <= c <= 'F'
  }

  /** parseInt(c, 16) */
  function DigitOf(c: char): (d: nat)
    requires IsHexChar(c)
    ensures d < 16
  {
    if '0' <= c <= '9' then c as nat - '0' as nat
    else if 'a' <= c <= 'f' then c as nat - 'a' as nat + 10
    else c as nat - 'A' as nat + 10
  }

  function ToLower(c: char): char {
    if 'A' <= c <= 'Z' then (c as int - 'A' as int + 'a' as int) as char else c
  }

  function Lowered(s: string): string { seq(|s|, i requires 0 <= i < |s| => ToLower(s[i])) }

  predicate IsHex(s: string) {
    forall i | 0 <= i < |s| :: IsHexChar(s[i])
  }

  predicate IsLowerHex(s: string) {
    IsHex(s) && forall i | 0 <= i < |s| :: !('A' <= s[i] <= 'F')
  }

  /** The digits of a hex text. */
  function DigitsOf(s: string): (ds: seq<nat>)
    requires IsHex(s)
    ensures |ds| == |s| && Digital(16, ds)
  {
    seq(|s|, i requires 0 <= i < |s| => DigitOf(s[i]))
  }

  function Text(ds: seq<nat>): (s: string)
    requires Digital(16, ds)
    ensures |s| == |ds|
  {
    seq(|ds|, i requires 0 <= i < |ds| => DigitChar(ds[i]))
  }

  function HexValue(s: string): nat
    requires IsHex(s)
  {
    Value(16, DigitsOf(s))
  }

  lemma {:induction false} CharOfDigit(d: nat)
    requires d < 16
    ensures IsHexChar(DigitChar(d)) && DigitOf(DigitChar(d)) == d && !('A' <= DigitChar(d) <= 'F')
  {
    assert LOWER == ['0', '1', '2', '3', '4', '5', '6', '7', '8', '9', 'a', 'b', 'c', 'd', 'e', 'f'];
  }

  lemma {:induction false} DigitOfChar(c: char)
    requires IsHexChar(c)
    ensures ToLower(c) == DigitChar(DigitOf(c))
  {
    assert LOWER == ['0', '1', '2', '3', '4', '5', '6', '7', '8', '9', 'a', 'b', 'c', 'd', 'e', 'f'];
  }

  lemma {:induction false} TextIsHex(ds: seq<nat>)
    requires Digital(16, ds)
    ensures IsLowerHex(Text(ds)) && DigitsOf(Text(ds)) == ds
  {
    forall i | 0 <= i < |ds| ensures IsHexChar(Text(ds)[i]) && DigitOf(Text(ds)[i]) == ds[i] && !('A' <= Text(ds)[i] <= 'F') {
      CharOfDigit(ds[i]);
    }
  }

  /** Lower-case hex text is determined by its digits. */
  lemma {:induction false} TextOfDigits(s: string)
    requires IsLowerHex(s)
    ensures Text(DigitsOf(s)) == s
  {
    forall i | 0 <= i < |s| ensures Text(DigitsOf(s))[i] == s[i] {
      DigitOfChar(s[i]);
    }
  }

  /** The shortest numeral of n; 0 is "0". */
  function Minimal(n: nat): (ds: seq<nat>)
    ensures ds != [] && Digital(16, ds) && (n > 0 ==> ds[0] > 0)
  {
    if n < 16 then [n] else Minimal(n / 16) + [n % 16]
  }

  lemma {:induction false} MinimalDenotes(n: nat)
    ensures Value(16, Minimal(n)) == n
  {
    if n >= 16 {
      MinimalDenotes(n / 16);
      assert Minimal(n)[..|Minimal(n)| - 1] == Minimal(n / 16);
    }
  }

  /** Digits without leading zeros. */
  function Stripped(ds: seq<nat>): seq<nat> {
    if ds != [] && ds[0] == 0 then Stripped(ds[1..]) else ds
  }

  lemma {:induction false} StrippedDenotes(ds: seq<nat>)
    requires Digital(16, ds)
    ensures Value(16, Stripped(ds)) == Value(16, ds) && Digital(16, Stripped(ds))
    ensures Stripped(ds) == [] || Stripped(ds)[0] > 0
    ensures |Stripped(ds)| <= |ds|
  {
    if ds != [] && ds[0] == 0 {
      assert ds == Zeros(1) + ds[1..];
      LeadingZeros(16, 1, ds[1..]);
      StrippedDenotes(ds[1..]);
    }
  }

  lemma {:induction false} ShorterIsSmaller(a: seq<nat>, b: seq<nat>)
    requires Digital(16, a) && |a| < |b| && b[0] > 0
    ensures Value(16, a) < Value(16, b)
  {
    ValueBound(16, a);
    LeadingDigit(16, b);
    PowAdd(16, |a|, |b| - 1 - |a|);
    Monotone(1, Pow(16, |b| - 1 - |a|), Pow(16, |a|));
  }

  /** Numerals without leading zeros are equal exactly if their values are. */
  lemma {:induction false} StrippedUnique(a: seq<nat>, b: seq<nat>)
    requires Digital(16, a) && Digital(16, b)
    ensures Stripped(a) == Stripped(b) <==> Value(16, a) == Value(16, b)
  {
    StrippedDenotes(a);
    StrippedDenotes(b);
    var x, y := Stripped(a), Stripped(b);
    if |x| < |y| {
      ShorterIsSmaller(x, y);
    } else if |y| < |x| {
      ShorterIsSmaller(y, x);
    } else {
      SameLength(16, x, y);
    }
  }
}
