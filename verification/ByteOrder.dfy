/** Comparing byte strings as big-endian numbers: `b_optimize_len` and `b_compare`. */
module ByteOrder {
  import opened Digits

  /** A `bytes_t`: a window into memory that `b_optimize_len` narrows in place. */
  class Bytes {
    const memory: seq<nat>
    var data: nat
    var len: nat

    ghost predicate Valid()
      reads this
    {
      data + len <= |memory| && Digital(256, memory)
    }

    ghost function Contents(): seq<nat>
      requires Valid()
      reads this
    {
      memory[data..data + len]
    }

    method OptimizeLen()
      requires Valid()
      modifies this
      ensures Valid() && Contents() == Optimized(old(Contents()))
    {
      ghost var s := Contents();
      while len > 1 && memory[data] == 0
        invariant Valid() && Optimized(Contents()) == Optimized(s)
        decreases len
      {
        data := data + 1;
        len := len - 1;
      }
    }
  }

  /** Without leading zero bytes, down to one byte. */
  function Optimized(s: seq<nat>): seq<nat> {
    if |s| > 1 && s[0] == 0 then Optimized(s[1..]) else s
  }

  function Sign(n: int): int { if n < 0 then -1 else if n > 0 then 1 else 0 }

  /** The sign of memcmp on equally long strings. */
  function Memcmp(a: seq<nat>, b: seq<nat>): int
    requires |a| == |b|
  {
    if a == [] then 0 else if a[0] != b[0] then Sign(a[0] as int - b[0] as int) else Memcmp(a[1..], b[1..])
  }

  /** `(int) len` */
  function AsInt(len: nat): int { if len < 0x8000_0000 then len else len - 0x1_0000_0000 }

  function Compare(a: seq<nat>, b: seq<nat>): int {
    if |a| == |b| then Memcmp(a, b) else AsInt(|a|) - AsInt(|b|)
  }

  lemma {:induction false} OptimizedDenotes(s: seq<nat>)
    requires Digital(256, s)
    ensures Value(256, Optimized(s)) == Value(256, s) && Digital(256, Optimized(s))
    ensures |Optimized(s)| <= |s| && (|Optimized(s)| == 0 <==> |s| == 0)
    ensures |Optimized(s)| > 1 ==> Optimized(s)[0] > 0
  {
    if |s| > 1 && s[0] == 0 {
      assert s == Zeros(1) + s[1..];
      LeadingZeros(256, 1, s[1..]);
      OptimizedDenotes(s[1..]);
    }
  }

  lemma {:induction false} MemcmpOrders(a: seq<nat>, b: seq<nat>)
    requires Digital(256, a) && Digital(256, b) && |a| == |b|
    ensures Memcmp(a, b) == Sign(Value(256, a) - Value(256, b))
  {
    if a != [] {
      var m := |a| - 1;
      assert a == [a[0]] + a[1..] && b == [b[0]] + b[1..];
      ValueAppend(256, [a[0]], a[1..]);
      ValueAppend(256, [b[0]], b[1..]);
      assert Value(256, [a[0]]) == a[0] && Value(256, [b[0]]) == b[0];
      ValueBound(256, a[1..]);
      ValueBound(256, b[1..]);
      if a[0] == b[0] {
        MemcmpOrders(a[1..], b[1..]);
      } else if a[0] < b[0] {
        Carry(Pow(256, m), a[0], Value(256, a[1..]), b[0]);
      } else {
        Carry(Pow(256, m), b[0], Value(256, b[1..]), a[0]);
      }
    }
  }

  /** A longer numeral without leading zeros is the larger one. */
  lemma {:induction false} LongerIsLarger(a: seq<nat>, b: seq<nat>)
    requires Digital(256, a) && |a| < |b| && b[0] > 0
    ensures Value(256, a) < Value(256, b)
  {
    ValueBound(256, a);
    LeadingDigit(256, b);
    PowAdd(256, |a|, |b| - 1 - |a|);
    Monotone(1, Pow(256, |b| - 1 - |a|), Pow(256, |a|));
  }

  /**
   After `b_optimize_len`, `b_compare` orders byte strings as big-endian
   numbers; it fails exactly if one is empty and the other a run of zeros.
   */
  lemma {:induction false} CompareIsNumeric(a: seq<nat>, b: seq<nat>)
    requires Digital(256, a) && Digital(256, b) && |a| < 0x8000_0000 && |b| < 0x8000_0000
    ensures
      Sign(Compare(Optimized(a), Optimized(b))) == Sign(Value(256, a) - Value(256, b))
      <==> !((a == []) != (b == []) && Value(256, a) == Value(256, b))
  {
    OptimizedDenotes(a);
    OptimizedDenotes(b);
    var x, y := Optimized(a), Optimized(b);
    if |x| == |y| {
      MemcmpOrders(x, y);
    } else if |x| < |y| && y[0] > 0 {
      LongerIsLarger(x, y);
    } else if |y| < |x| && x[0] > 0 {
      LongerIsLarger(y, x);
    } else {
      assert Value(256, [0]) == 0;
      assert (x == [] && y == [0]) || (x == [0] && y == []);
    }
  }

  /** Nothing and one zero byte denote the same number and compare unequal. */
  lemma {:induction false} EmptyIsNotZero()
    ensures Value(256, []) == Value(256, [0]) && Compare(Optimized([]), Optimized([0])) == -1
  {
    assert Value(256, [0]) == 0;
  }
}
