/** Big-endian numerals in any base, as sequences of digits. */
module Digits {

  function Pow(base: nat, n: nat): (p: nat)
    ensures base > 0 ==> p > 0
  {
    if n == 0 then 1 else base * Pow(base, n - 1)
  }

  /** The number that digits `ds` denote, most significant first. */
  function Value(base: nat, ds: seq<nat>): nat {
    if ds == [] then 0 else Value(base, ds[..|ds| - 1]) * base + ds[|ds| - 1]
  }

  predicate Digital(base: nat, ds: seq<nat>) {
    forall i | 0 <= i < |ds| :: ds[i] < base
  }

  function Zeros(n: nat): seq<nat> { seq(n, _ => 0) }

  lemma {:induction false} PowAdd(base: nat, m: nat, n: nat)
    ensures Pow(base, m + n) == Pow(base, m) * Pow(base, n)
  {
    if m > 0 {
      PowAdd(base, m - 1, n);
      Associate(base, Pow(base, m - 1), Pow(base, n));
    }
  }

  lemma {:induction false} Associate(a: nat, b: nat, c: nat)
    ensures a * (b * c) == (a * b) * c
  {
  }

  lemma {:induction false} Monotone(a: nat, b: nat, c: nat)
    requires a <= b
    ensures a * c <= b * c
  {
  }

  lemma {:induction false} Carry(base: nat, q: nat, r: nat, q': nat)
    requires r < base && q < q'
    ensures q * base + r < q' * base
  {
    Monotone(q + 1, q', base);
  }

  lemma {:induction false} ValueAppend(base: nat, a: seq<nat>, b: seq<nat>)
    ensures Value(base, a + b) == Value(base, a) * Pow(base, |b|) + Value(base, b)
  {
    if b == [] {
      assert a + b == a;
    } else {
      var front := b[..|b| - 1];
      assert (a + b)[..|a + b| - 1] == a + front;
      ValueAppend(base, a, front);
      calc {
        Value(base, a + b);
        (Value(base, a) * Pow(base, |front|) + Value(base, front)) * base + b[|b| - 1];
        Value(base, a) * Pow(base, |front|) * base + Value(base, front) * base + b[|b| - 1];
        { Associate(Value(base, a), Pow(base, |front|), base); }
        Value(base, a) * Pow(base, |b|) + Value(base, b);
      }
    }
  }

  lemma {:induction false} ValueBound(base: nat, ds: seq<nat>)
    requires Digital(base, ds)
    ensures Value(base, ds) < Pow(base, |ds|)
  {
    if ds != [] {
      var front := ds[..|ds| - 1];
      ValueBound(base, front);
      Carry(base, Value(base, front), ds[|ds| - 1], Pow(base, |front|));
    }
  }

  lemma {:induction false} ValueOfZeros(base: nat, n: nat)
    ensures Value(base, Zeros(n)) == 0
  {
    if n > 0 {
      assert Zeros(n)[..n - 1] == Zeros(n - 1);
      ValueOfZeros(base, n - 1);
    }
  }

  /** Leading zeros do not count. */
  lemma {:induction false} LeadingZeros(base: nat, n: nat, ds: seq<nat>)
    ensures Value(base, Zeros(n) + ds) == Value(base, ds)
  {
    ValueAppend(base, Zeros(n), ds);
    ValueOfZeros(base, n);
  }

  /** A numeral with a nonzero first digit reaches its leading power. */
  lemma {:induction false} LeadingDigit(base: nat, ds: seq<nat>)
    requires ds != [] && ds[0] > 0
    ensures Value(base, ds) >= Pow(base, |ds| - 1)
  {
    assert ds == [ds[0]] + ds[1..];
    ValueAppend(base, [ds[0]], ds[1..]);
    assert Value(base, [ds[0]]) == ds[0];
    Monotone(1, ds[0], Pow(base, |ds| - 1));
  }

  lemma {:induction false} SameLength(base: nat, a: seq<nat>, b: seq<nat>)
    requires Digital(base, a) && Digital(base, b) && |a| == |b|
    ensures Value(base, a) == Value(base, b) ==> a == b
  {
    if a != [] && Value(base, a) == Value(base, b) {
      var n := |a| - 1;
      UniqueDivision(base, Value(base, a[..n]), a[n], Value(base, b[..n]), b[n]);
      SameLength(base, a[..n], b[..n]);
      assert a == a[..n] + [a[n]] && b == b[..n] + [b[n]];
    }
  }

  lemma {:induction false} UniqueDivision(base: nat, q: nat, r: nat, q': nat, r': nat)
    requires r < base && r' < base && q * base + r == q' * base + r'
    ensures q == q' && r == r'
  {
    if q < q' { Carry(base, q, r, q'); }
    if q' < q { Carry(base, q', r', q); }
  }

  /** Base-256 digits and their base-16 pairs denote the same number. */
  function Nibbles(bytes: seq<nat>): seq<nat> {
    if bytes == [] then [] else Nibbles(bytes[..|bytes| - 1]) + [bytes[|bytes| - 1] / 16, bytes[|bytes| - 1] % 16]
  }

  lemma {:induction false} PairValue(b: nat)
    ensures Value(16, [b / 16, b % 16]) == b && Pow(16, 2) == 256
  {
    var pair := [b / 16, b % 16];
    assert pair[..1] == [b / 16] && pair[..1][..0] == [];
    assert Value(16, pair[..1]) == b / 16;
    assert Pow(16, 1) == 16;
  }

  lemma {:induction false} NibblesDenote(bytes: seq<nat>)
    requires Digital(256, bytes)
    ensures Value(16, Nibbles(bytes)) == Value(256, bytes)
    ensures |Nibbles(bytes)| == 2 * |bytes| && Digital(16, Nibbles(bytes))
  {
    if bytes != [] {
      var front, b := bytes[..|bytes| - 1], bytes[|bytes| - 1];
      NibblesDenote(front);
      ValueAppend(16, Nibbles(front), [b / 16, b % 16]);
      PairValue(b);
    }
  }
}
