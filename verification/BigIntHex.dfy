/** The .NET conversions between BigInteger and 0x-prefixed hex text. */
module BigIntHex {
  import opened Digits
  import opened HexDigits

  datatype Parsed = Number(n: int) | FormatError

  /** `ToString("X")` of a nonnegative BigInteger: two's complement, so a leading digit above 7 gets a 0. */
  function ToStringX(n: nat): string {
    var ds := Minimal(n);
    Uppered(Text(if ds[0] >= 8 then [0] + ds else ds))
  }

  function ToUpper(c: char): char {
    if 'a' <= c <= 'z' then (c as int - 'a' as int + 'A' as int) as char else c
  }

  function Uppered(s: string): string { seq(|s|, i requires 0 <= i < |s| => ToUpper(s[i])) }

  /** `TrimStart('0')` */
  function TrimZeros(s: string): string {
    if s != "" && s[0] == '0' then TrimZeros(s[1..]) else s
  }

  /** `BigInteger.Parse` with AllowHexSpecifier: two's complement of the given width. */
  function ParseHex(s: string): Parsed {
    if s == "" || !IsHex(s) then FormatError
    else if DigitOf(s[0]) >= 8 then Number(HexValue(s) - Pow(16, |s|))
    else Number(HexValue(s))
  }

  function Negated(p: Parsed): Parsed {
    match p case Number(n) => Number(0 - n) case FormatError => FormatError
  }

  predicate StartsWith(s: string, prefix: string) { prefix <= s }

  /** `Char.IsWhiteSpace` */
  predicate IsWhite(c: char) {
    var x := c as int;
    9 <= x <= 13 || x in {0x20, 0x85, 0xA0, 0x1680, 0x2028, 0x2029, 0x202F, 0x205F, 0x3000} || 0x2000 <= x <= 0x200A
  }

  predicate IsBlank(s: string) { forall i | 0 <= i < |s| :: IsWhite(s[i]) }

  function HexStringToBigint(source: string): Parsed {
    if IsBlank(source) then Number(0)
    else if StartsWith(source, "0x") then ParseHex("0" + source[2..])
    else if StartsWith(source, "-0x") then Negated(ParseHex("0" + source[3..]))
    else ParseHex(source)
  }

  function BigIntToPrefixedHex(source: int): string {
    if source == 0 then "0x0"
    else if source >= 0 then Lowered("0x" + TrimZeros(ToStringX(source)))
    else Lowered("-0x" + TrimZeros(ToStringX(source * -1)))
  }

  /** Lower case of the printed and trimmed number is its shortest numeral. */
  lemma {:induction false} PrintedDigits(n: nat)
    requires n > 0
    ensures Lowered(TrimZeros(ToStringX(n))) == Text(Minimal(n))
  {
    var ds := Minimal(n);
    var s := Text(ds);
    TextIsHex(ds);
    CharOfDigit(ds[0]);
    assert s[0] != '0' by { assert DigitOf('0') == 0; assert DigitOf(s[0]) == ds[0]; }
    var u := Uppered(s);
    if ds[0] >= 8 {
      assert Text([0] + ds) == "0" + s;
      assert Uppered("0" + s) == "0" + u;
      assert ("0" + u)[1..] == u;
    }
    UpperLower(s);
  }

  lemma {:induction false} UpperLower(s: string)
    requires IsLowerHex(s)
    ensures Lowered(Uppered(s)) == s
    ensures s != "" && s[0] != '0' ==> TrimZeros(Uppered(s)) == Uppered(s)
  {
  }

  /** Text after "0x" is read as an unsigned number, whatever its first digit. */
  lemma {:induction false} PrefixedIsUnsigned(s: string)
    ensures HexStringToBigint("0x" + s) == if IsHex(s) then Number(HexValue(s)) else FormatError
    ensures HexStringToBigint("-0x" + s) == if IsHex(s) then Number(0 - HexValue(s)) else FormatError
  {
    var t := "0" + s;
    assert ("0x" + s)[2..] == s && ("-0x" + s)[3..] == s;
    assert ("0x" + s)[0] == '0' && ("-0x" + s)[0] == '-';
    assert StartsWith("0x" + s, "0x") && StartsWith("-0x" + s, "-0x");
    assert IsHex(t) <==> IsHex(s) by { assert t[0] == '0'; assert t[1..] == s; HexTail(t); }
    if IsHex(s) {
      assert DigitsOf(t) == Zeros(1) + DigitsOf(s);
      LeadingZeros(16, 1, DigitsOf(s));
    }
  }

  lemma {:induction false} HexTail(t: string)
    requires t != "" && IsHexChar(t[0])
    ensures IsHex(t) <==> IsHex(t[1..])
  {
    if IsHex(t[1..]) {
      forall i | 0 <= i < |t| ensures IsHexChar(t[i]) {
        if i > 0 { assert t[i] == t[1..][i - 1]; }
      }
    }
  }

  function Magnitude(n: int): nat { if n < 0 then -n else n }

  /** The text is a sign, "0x" and the shortest numeral of the magnitude. */
  lemma {:induction false} PrintedForm(n: int)
    ensures BigIntToPrefixedHex(n) == (if n < 0 then "-0x" else "0x") + Text(Minimal(Magnitude(n)))
  {
    if n == 0 {
      assert Text([0]) == "0";
    } else {
      PrintedDigits(Magnitude(n));
      var s := TrimZeros(ToStringX(Magnitude(n)));
      LoweredPrefix(s);
    }
  }

  lemma {:induction false} LoweredPrefix(s: string)
    ensures Lowered("0x" + s) == "0x" + Lowered(s)
    ensures Lowered("-0x" + s) == "-0x" + Lowered(s)
  {
  }

  /** Printing and reading back gives every integer back. */
  lemma {:induction false} BigIntRoundTrip(n: int)
    ensures HexStringToBigint(BigIntToPrefixedHex(n)) == Number(n)
  {
    PrintedForm(n);
    MinimalDenotes(Magnitude(n));
    TextIsHex(Minimal(Magnitude(n)));
    PrefixedIsUnsigned(Text(Minimal(Magnitude(n))));
  }

  /**
   Text without "0x" is read as two's complement: the number of its width that
   differs from its unsigned value by a multiple of 16^width.
   */
  lemma {:induction false} UnprefixedIsSigned(s: string)
    requires s != "" && IsHex(s)
    ensures
      exists n :: HexStringToBigint(s) == Number(n) && -(Pow(16, |s|) as int) <= 2 * n < Pow(16, |s|) &&
                  (n == HexValue(s) || n == HexValue(s) - Pow(16, |s|))
  {
    assert !IsWhite(s[0]) && s[0] != '-' && (|s| > 1 ==> s[1] != 'x');
    var ds := DigitsOf(s);
    assert ds == [ds[0]] + ds[1..];
    ValueAppend(16, [ds[0]], ds[1..]);
    assert Value(16, [ds[0]]) == ds[0];
    ValueBound(16, ds[1..]);
    SignedHalf(ds[0], Value(16, ds[1..]), Pow(16, |ds| - 1));
    assert HexStringToBigint(s) == ParseHex(s);
    var n := if ds[0] >= 8 then HexValue(s) - Pow(16, |s|) else HexValue(s);
    assert HexStringToBigint(s) == Number(n);
  }

  lemma {:induction false} SignedHalf(d: nat, v: nat, p: nat)
    requires d < 16 && v < p
    ensures d >= 8 ==> -16 * p <= 2 * (d * p + v - 16 * p) < 0
    ensures d < 8 ==> 0 <= 2 * (d * p + v) < 16 * p
  {
    if d >= 8 {
      Monotone(8, d, p);
      Monotone(d, 15, p);
    } else {
      Monotone(d, 7, p);
    }
  }

  /** Blank text is zero, and text with anything else than hex digits and a prefix is refused. */
  lemma {:induction false} BlankOrRefused(s: string)
    ensures IsBlank(s) ==> HexStringToBigint(s) == Number(0)
    ensures !IsBlank(s) && !IsHex(s) && !StartsWith(s, "0x") && !StartsWith(s, "-0x") ==>
              HexStringToBigint(s) == FormatError
  {
  }

  /** What `ToString("X")` prints is read back as the same number, without any prefix. */
  lemma {:induction false} PrintedIsReadSigned(n: nat)
    ensures ParseHex(ToStringX(n)) == Number(n)
  {
    var ds := Minimal(n);
    MinimalDenotes(n);
    if ds[0] >= 8 {
      assert [0] + ds == Zeros(1) + ds;
      LeadingZeros(16, 1, ds);
      ReadPositive([0] + ds);
    } else {
      ReadPositive(ds);
    }
  }

  lemma {:induction false} ReadPositive(ds: seq<nat>)
    requires Digital(16, ds) && ds != [] && ds[0] < 8
    ensures ParseHex(Uppered(Text(ds))) == Number(Value(16, ds))
  {
    var s := Uppered(Text(ds));
    TextIsHex(ds);
    UpperHex(Text(ds));
    assert DigitOf(s[0]) == DigitsOf(s)[0];
  }

  lemma {:induction false} UpperHex(s: string)
    requires IsHex(s)
    ensures IsHex(Uppered(s)) && DigitsOf(Uppered(s)) == DigitsOf(s)
  {
  }
}
