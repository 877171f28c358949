/** Binary numerals and the bitwise operators `&` and `|` on non-negative
    integers, as the pitch-class set module uses them: `parseInt(s, 2)`,
    `n.toString(2)` and the bit masks of set numbers. */
module Bits {

  function Pow2(k: nat): (p: nat)
    ensures p >= 1
  {
    if k == 0 then 1 else 2 * Pow2(k - 1)
  }

  /** Bit `i` (counting from the least significant) of `n`. */
  predicate Bit(n: nat, i: nat)
  {
    if i == 0 then n % 2 == 1 else Bit(n / 2, i - 1)
  }

  /** `a & b` for non-negative integers. */
  function BitAnd(a: nat, b: nat): nat
  {
    if a == 0 || b == 0 then 0
    else 2 * BitAnd(a / 2, b / 2) + (if a % 2 == 1 && b % 2 == 1 then 1 else 0)
  }

  /** `a | b` for non-negative integers. */
  function BitOr(a: nat, b: nat): nat
  {
    if a == 0 then b
    else if b == 0 then a
    else 2 * BitOr(a / 2, b / 2) + (if a % 2 == 1 || b % 2 == 1 then 1 else 0)
  }

  lemma BitHalf(n: nat, i: nat)
    ensures Bit(n, i + 1) == Bit(n / 2, i)
  {}

  lemma BitOfZero(i: nat)
    ensures !Bit(0, i)
  {
    if i > 0 {
      BitOfZero(i - 1);
    }
  }

  /** The bits of `a & b` are the conjunctions of the bits of `a` and `b`. */
  lemma {:induction false} BitAndBits(a: nat, b: nat, i: nat)
    ensures Bit(BitAnd(a, b), i) == (Bit(a, i) && Bit(b, i))
    decreases i
  {
    if a == 0 || b == 0 {
      BitOfZero(i);
    } else if i > 0 {
      BitAndBits(a / 2, b / 2, i - 1);
      var c := BitAnd(a / 2, b / 2);
      assert (2 * c + (if a % 2 == 1 && b % 2 == 1 then 1 else 0)) / 2 == c;
    }
  }

  /** The bits of `a | b` are the disjunctions of the bits of `a` and `b`. */
  lemma {:induction false} BitOrBits(a: nat, b: nat, i: nat)
    ensures Bit(BitOr(a, b), i) == (Bit(a, i) || Bit(b, i))
    decreases i
  {
    if a == 0 {
      BitOfZero(i);
    } else if b == 0 {
      BitOfZero(i);
    } else if i > 0 {
      BitOrBits(a / 2, b / 2, i - 1);
      var c := BitOr(a / 2, b / 2);
      assert (2 * c + (if a % 2 == 1 || b % 2 == 1 then 1 else 0)) / 2 == c;
    }
  }

  /** Numbers with the same bits are equal. */
  lemma {:induction false} BitsEqual(a: nat, b: nat)
    requires forall i: nat :: Bit(a, i) == Bit(b, i)
    ensures a == b
    decreases a + b
  {
    if a != 0 || b != 0 {
      assert Bit(a, 0) == Bit(b, 0);
      forall i: nat
        ensures Bit(a / 2, i) == Bit(b / 2, i)
      {
        BitHalf(a, i);
        BitHalf(b, i);
      }
      BitsEqual(a / 2, b / 2);
    }
  }

  /** `(a & b) === a` holds exactly when every bit of `a` is a bit of `b`. */
  lemma BitAndSubset(a: nat, b: nat)
    ensures BitAnd(a, b) == a <==> forall i: nat :: Bit(a, i) ==> Bit(b, i)
  {
    forall i: nat
      ensures Bit(BitAnd(a, b), i) == (Bit(a, i) && Bit(b, i))
    {
      BitAndBits(a, b, i);
    }
    if forall i: nat :: Bit(a, i) ==> Bit(b, i) {
      BitsEqual(BitAnd(a, b), a);
    } else {
      var i: nat :| Bit(a, i) && !Bit(b, i);
      BitAndBits(a, b, i);
      assert BitAnd(a, b) != a;
    }
  }

  /** `(a | b) === a` holds exactly when every bit of `b` is a bit of `a`. */
  lemma BitOrSuperset(a: nat, b: nat)
    ensures BitOr(a, b) == a <==> forall i: nat :: Bit(b, i) ==> Bit(a, i)
  {
    forall i: nat
      ensures Bit(BitOr(a, b), i) == (Bit(a, i) || Bit(b, i))
    {
      BitOrBits(a, b, i);
    }
    if forall i: nat :: Bit(b, i) ==> Bit(a, i) {
      BitsEqual(BitOr(a, b), a);
    } else {
      var i: nat :| Bit(b, i) && !Bit(a, i);
      BitOrBits(a, b, i);
      assert BitOr(a, b) != a;
    }
  }

  /** A number below `2^k` has no bit at position `k` or above. */
  lemma {:induction false} BitHigh(n: nat, k: nat, i: nat)
    requires n < Pow2(k) && k <= i
    ensures !Bit(n, i)
    decreases i
  {
    if k == 0 {
      assert n == 0;
      BitOfZero(i);
    } else {
      BitHigh(n / 2, k - 1, i - 1);
    }
  }

  predicate IsBinary(s: string) { forall k :: 0 <= k < |s| ==> s[k] == '0' || s[k] == '1' }

  /** `parseInt(s, 2)` for a string of binary digits (the empty string, which
      the engine never passes, counts as 0 here). */
  function BinaryValue(s: string): nat
    requires IsBinary(s)
  {
    if |s| == 0 then 0 else 2 * BinaryValue(s[..|s| - 1]) + (if s[|s| - 1] == '1' then 1 else 0)
  }

  /** `Number(n).toString(2)`: binary digits with no leading zero. */
  function ToBinary(n: nat): (s: string)
    ensures |s| > 0 && IsBinary(s)
    ensures |s| > 1 ==> s[0] == '1'
  {
    if n < 2 then [if n == 0 then '0' else '1']
    else ToBinary(n / 2) + [if n % 2 == 0 then '0' else '1']
  }

  lemma {:induction false} ToBinaryValue(n: nat)
    ensures BinaryValue(ToBinary(n)) == n
  {
    if n >= 2 {
      ToBinaryValue(n / 2);
      var s := ToBinary(n);
      assert s[..|s| - 1] == ToBinary(n / 2);
    }
  }

  /** A numeral of `k` binary digits is below `2^k`, and at least `2^(k-1)`
      when it starts with 1. */
  lemma {:induction false} BinaryValueBounds(s: string)
    requires IsBinary(s)
    ensures BinaryValue(s) < Pow2(|s|)
    ensures |s| > 0 && s[0] == '1' ==> BinaryValue(s) >= Pow2(|s| - 1)
  {
    if |s| > 0 {
      BinaryValueBounds(s[..|s| - 1]);
    }
  }

  /** Bit `i` of a numeral's value is its `i`-th digit from the right. */
  lemma {:induction false} BinaryValueBit(s: string, i: nat)
    requires IsBinary(s)
    ensures Bit(BinaryValue(s), i) <==> i < |s| && s[|s| - 1 - i] == '1'
    decreases |s|
  {
    if |s| == 0 {
      BitOfZero(i);
    } else if i > 0 {
      var t := s[..|s| - 1];
      BinaryValueBit(t, i - 1);
      var v := BinaryValue(t);
      assert (2 * v + (if s[|s| - 1] == '1' then 1 else 0)) / 2 == v;
      if i < |s| {
        assert t[|t| - 1 - (i - 1)] == s[|s| - 1 - i];
      }
    }
  }

  /** Numerals of the same length with the same value are the same. */
  lemma BinaryValueInjective(s: string, t: string)
    requires IsBinary(s) && IsBinary(t) && |s| == |t|
    requires BinaryValue(s) == BinaryValue(t)
    ensures s == t
  {
    forall k | 0 <= k < |s|
      ensures s[k] == t[k]
    {
      BinaryValueBit(s, |s| - 1 - k);
      BinaryValueBit(t, |s| - 1 - k);
    }
  }

  /** A numeral that starts with 1 (or is a single digit) is what
      `toString(2)` writes for its value. */
  lemma {:induction false} ToBinaryOfValue(s: string)
    requires IsBinary(s) && |s| > 0 && (|s| > 1 ==> s[0] == '1')
    ensures ToBinary(BinaryValue(s)) == s
  {
    if |s| > 1 {
      var t := s[..|s| - 1];
      ToBinaryOfValue(t);
      BinaryValueBounds(t);
      var v := BinaryValue(t);
      assert v >= 1;
      var n := BinaryValue(s);
      assert n / 2 == v;
    } else {
      assert s == [s[0]];
    }
  }

  lemma {:induction false} Pow2Monotonic(a: nat, b: nat)
    requires a <= b
    ensures Pow2(a) <= Pow2(b)
    decreases b
  {
    if a < b {
      Pow2Monotonic(a, b - 1);
    }
  }

  /** A number from `2^(k-1)` up to below `2^k` is written with `k` binary
      digits, the first of them 1. */
  lemma ToBinaryLength(n: nat, k: nat)
    requires k >= 1 && Pow2(k - 1) <= n < Pow2(k)
    ensures |ToBinary(n)| == k && ToBinary(n)[0] == '1'
  {
    var s := ToBinary(n);
    ToBinaryValue(n);
    BinaryValueBounds(s);
    if |s| == 1 {
      assert n < 2;
      assert s[0] == '1';
    }
    if |s| < k {
      Pow2Monotonic(|s|, k - 1);
    } else if |s| > k {
      Pow2Monotonic(k, |s| - 1);
    }
  }
}
