/** The list helpers of the engine's array module (js/app.js:9-148): numeric
    ranges, rotation, compaction and permutations. */
module ArrayUtils {
  import opened JsText
  import opened Wrappers

  /** `ascR(b, n)`: the loop counts `n` down and writes slot `n` as it goes,
      so the last slot is written first; slot `k` ends up holding `b + k`. */
  method AscR(b: int, n: nat) returns (r: seq<int>)
    ensures |r| == n
    ensures forall k :: 0 <= k < n ==> r[k] == b + k
  {
    var a := new int[n];
    var i := n;
    while i > 0
      invariant 0 <= i <= n
      invariant forall k :: i <= k < n ==> a[k] == b + k
    {
      i := i - 1;
      a[i] := i + b;
    }
    r := a[..];
  }

  /** `descR(b, n)`: the same countdown, slot `k` holding `b - k`. */
  method DescR(b: int, n: nat) returns (r: seq<int>)
    ensures |r| == n
    ensures forall k :: 0 <= k < n ==> r[k] == b - k
  {
    var a := new int[n];
    var i := n;
    while i > 0
      invariant 0 <= i <= n
      invariant forall k :: i <= k < n ==> a[k] == b - k
    {
      i := i - 1;
      a[i] := b - i;
    }
    r := a[..];
  }

  /** `range(from, to)`: every integer from `from` to `to`, both included,
      counting up or down. */
  method Range(from: int, to: int) returns (r: seq<int>)
    ensures |r| == (if from < to then to - from else from - to) + 1
    ensures r[0] == from && r[|r| - 1] == to
    ensures forall k :: 0 <= k < |r| ==> r[k] == if from < to then from + k else from - k
    ensures forall x :: x in r <==> (from <= x <= to || to <= x <= from)
  {
    if from < to {
      r := AscR(from, to - from + 1);
      forall x | from <= x <= to
        ensures x in r
      {
        assert r[x - from] == x;
      }
    } else {
      r := DescR(from, from - to + 1);
      forall x | to <= x <= from
        ensures x in r
      {
        assert r[from - x] == x;
      }
    }
  }

  /** `rotate(times, arr)`: the list read from position `times` (taken modulo
      its length, negative counts rotating the other way) round to the start.
      An empty list stays empty. */
  function Rotate<T>(times: int, arr: seq<T>): (r: seq<T>)
    ensures |r| == |arr|
    ensures forall k :: 0 <= k < |arr| ==> r[k] == arr[(k + times) % |arr|]
  {
    if |arr| == 0 then []
    else
      var len := |arr|;
      var n := JsRem(JsRem(times, len) + len, len);
      RotateElements(times, arr, n);
      arr[n..] + arr[..n]
  }

  /** Euclidean division is unique: a quotient and a remainder in range that
      rebuild `a` are `a / len` and `a % len`. */
  lemma ModUnique(a: int, len: int, q: int, r: int)
    requires len > 0 && 0 <= r < len && a == q * len + r
    ensures a % len == r && a / len == q
  {
    var q', r' := a / len, a % len;
    assert a == q' * len + r';
    assert (q' - q) * len == r - r';
    if q' - q >= 1 { assert false; }
    if q - q' >= 1 { assert false; }
  }

  /** The start position `rotate` computes is `times` modulo the length, and
      reading from it wraps round as indices modulo the length do. */
  lemma RotateIndex(times: int, len: int, n: int)
    requires len > 0 && n == JsRem(JsRem(times, len) + len, len)
    ensures 0 <= n < len && times == (times / len) * len + n
  {
    if times >= 0 {
      ModUnique(JsRem(times, len) + len, len, 1, JsRem(times, len));
    } else if (-times) % len == 0 {
      RotateIndexNegExact(times, len);
    } else {
      RotateIndexNeg(times, len);
    }
  }

  lemma RotateIndexNegExact(times: int, len: int)
    requires len > 0 && times < 0 && (-times) % len == 0
    ensures JsRem(JsRem(times, len) + len, len) == 0 && times == (times / len) * len
  {
    var d := (-times) / len;
    assert -times == d * len;
    ModUnique(len, len, 1, 0);
    ModUnique(times, len, -d, 0);
  }

  lemma RotateIndexNeg(times: int, len: int)
    requires len > 0 && times < 0 && (-times) % len != 0
    ensures var n := len - (-times) % len;
      JsRem(JsRem(times, len) + len, len) == n && times == (times / len) * len + n
  {
    var d, e := (-times) / len, (-times) % len;
    assert -times == d * len + e;
    ModUnique(len - e, len, 0, len - e);
    ModUnique(times, len, -d - 1, len - e);
  }

  /** Reading the list from position `n` round to the start puts element
      `(k + times) % len` at index `k`. */
  lemma RotateElements<T>(times: int, arr: seq<T>, n: int)
    requires |arr| > 0 && n == JsRem(JsRem(times, |arr|) + |arr|, |arr|)
    ensures 0 <= n < |arr|
    ensures forall k :: 0 <= k < |arr| ==> (arr[n..] + arr[..n])[k] == arr[(k + times) % |arr|]
  {
    var len := |arr|;
    RotateIndex(times, len, n);
    var Q := times / len;
    forall k | 0 <= k < len
      ensures (arr[n..] + arr[..n])[k] == arr[(k + times) % len]
    {
      if k < len - n {
        ModUnique(k + times, len, Q, n + k);
      } else {
        ModUnique(k + times, len, Q + 1, k - (len - n));
      }
    }
  }

  lemma ModSum(k: int, s: int, t: int, len: int)
    requires len > 0
    ensures ((k + s) % len + t) % len == (k + s + t) % len
  {
    var x := k + s;
    var X, xr := x / len, x % len;
    assert x == X * len + xr;
    var Y, yr := (xr + t) / len, (xr + t) % len;
    assert xr + t == Y * len + yr;
    assert (X + Y) * len == X * len + Y * len;
    ModUnique(x + t, len, X + Y, yr);
  }

  /** Rotating twice is rotating by the sum of the counts. */
  lemma RotateRotate<T>(s: int, t: int, arr: seq<T>)
    ensures Rotate(s, Rotate(t, arr)) == Rotate(s + t, arr)
  {
    var len := |arr|;
    if len > 0 {
      forall k | 0 <= k < len
        ensures Rotate(s, Rotate(t, arr))[k] == Rotate(s + t, arr)[k]
      {
        ModSum(k, s, t, len);
      }
    }
  }

  /** Rotating back by the same count restores the list. */
  lemma RotateInverse<T>(t: int, arr: seq<T>)
    ensures Rotate(-t, Rotate(t, arr)) == arr
  {
    RotateRotate(-t, t, arr);
    if |arr| > 0 {
      forall k | 0 <= k < |arr|
        ensures Rotate(-t, Rotate(t, arr))[k] == arr[k]
      {
        ModUnique(k + 0, |arr|, 0, k);
      }
    }
  }

  /** `compact(arr)` on a list of strings and nulls (None): keeps, in order,
      every value that is `0` or truthy, which drops the nulls and the empty
      strings. */
  function Compact(arr: seq<Option<string>>): (r: seq<string>)
    ensures |r| <= |arr|
  {
    if |arr| == 0 then []
    else if arr[0].Some? && arr[0].value != "" then [arr[0].value] + Compact(arr[1..])
    else Compact(arr[1..])
  }

  /** A value survives compaction exactly when it is a non-empty string of
      the list. */
  lemma {:induction false} CompactMembers(arr: seq<Option<string>>)
    ensures forall s :: s in Compact(arr) <==> s != "" && Some(s) in arr
  {
    if |arr| > 0 {
      CompactMembers(arr[1..]);
      assert arr == [arr[0]] + arr[1..];
    }
  }

  /** Compaction works piecewise: compacting a concatenation concatenates the
      compacted parts, so the survivors keep their order. */
  lemma {:induction false} CompactAppend(a: seq<Option<string>>, b: seq<Option<string>>)
    ensures Compact(a + b) == Compact(a) + Compact(b)
  {
    if |a| > 0 {
      assert (a + b)[1..] == a[1..] + b;
      CompactAppend(a[1..], b);
    } else {
      assert a + b == b;
    }
  }

  /** With no null and no empty string, compaction changes nothing. */
  lemma {:induction false} CompactPresent(arr: seq<Option<string>>)
    requires forall k :: 0 <= k < |arr| ==> arr[k].Some? && arr[k].value != ""
    ensures |Compact(arr)| == |arr|
    ensures forall k :: 0 <= k < |arr| ==> Compact(arr)[k] == arr[k].value
  {
    if |arr| > 0 {
      CompactPresent(arr[1..]);
    }
  }

  function Factorial(n: nat): nat
  {
    if n == 0 then 1 else n * Factorial(n - 1)
  }

  /** `perm.slice()` followed by `splice(pos, 0, x)`. */
  function InsertAt<T>(perm: seq<T>, pos: nat, x: T): (r: seq<T>)
    requires pos <= |perm|
    ensures |r| == |perm| + 1 && r[pos] == x
    ensures multiset(r) == multiset(perm) + multiset{x}
  {
    assert perm == perm[..pos] + perm[pos..];
    perm[..pos] + [x] + perm[pos..]
  }

  /** `arr.map((e, pos) => …)` inside the reduction: `x` put at each of the
      `n` positions of `perm`, one list per position. */
  function Spread<T>(x: T, perm: seq<T>, n: nat): (r: seq<seq<T>>)
    requires n == |perm| + 1
    ensures |r| == n
    ensures forall k :: 0 <= k < n ==> r[k] == InsertAt(perm, k, x)
  {
    seq(n, pos requires 0 <= pos < n => InsertAt(perm, pos, x))
  }

  /** The reduction over the permutations of the tail. */
  function SpreadAll<T>(x: T, perms: seq<seq<T>>, n: nat): (r: seq<seq<T>>)
    requires forall p :: p in perms ==> |p| + 1 == n
    ensures |r| == |perms| * n
    ensures forall q :: q in r ==> |q| == n
    decreases |perms|
  {
    if |perms| == 0 then []
    else
      var rest := SpreadAll(x, perms[1..], n);
      assert |perms| * n == n + (|perms| - 1) * n;
      Spread(x, perms[0], n) + rest
  }

  /** `permutations(arr)`: for each permutation of the tail, the head put at
      every position in turn. */
  function Permutations<T>(arr: seq<T>): (r: seq<seq<T>>)
    ensures forall p :: p in r ==> |p| == |arr|
    decreases |arr|
  {
    if |arr| == 0 then [[]]
    else SpreadAll(arr[0], Permutations(arr[1..]), |arr|)
  }

  /** The lists SpreadAll produces are exactly the insertions of `x` into one
      of the given lists. */
  lemma {:induction false} SpreadAllMembers<T>(x: T, perms: seq<seq<T>>, n: nat, q: seq<T>)
    requires forall p :: p in perms ==> |p| + 1 == n
    ensures q in SpreadAll(x, perms, n) <==>
              exists p, pos :: p in perms && 0 <= pos < n && q == InsertAt(p, pos, x)
    decreases |perms|
  {
    if |perms| > 0 {
      SpreadAllMembers(x, perms[1..], n, q);
      var s := Spread(x, perms[0], n);
      assert q in SpreadAll(x, perms, n) <==> q in s || q in SpreadAll(x, perms[1..], n);
      if q in s {
        var pos :| 0 <= pos < n && s[pos] == q;
        assert perms[0] in perms;
      }
      if exists p, pos :: p in perms && 0 <= pos < n && q == InsertAt(p, pos, x) {
        var p, pos :| p in perms && 0 <= pos < n && q == InsertAt(p, pos, x);
        if p == perms[0] {
          assert s[pos] == q;
        } else {
          assert p in perms[1..];
        }
      }
    }
  }

  /** There are `n!` permutations of `n` elements. */
  lemma {:induction false} PermutationsCount<T>(arr: seq<T>)
    ensures |Permutations(arr)| == Factorial(|arr|)
    decreases |arr|
  {
    if |arr| > 0 {
      PermutationsCount(arr[1..]);
      var n, m := |arr|, Factorial(|arr| - 1);
      var c := |Permutations(arr[1..])|;
      assert c == m;
      assert |Permutations(arr)| == c * n;
      assert Factorial(n) == n * m == m * n;
    }
  }

  /** Every list produced is a rearrangement of the input. */
  lemma {:induction false} PermutationsArePermutations<T>(arr: seq<T>, q: seq<T>)
    requires q in Permutations(arr)
    ensures multiset(q) == multiset(arr)
    decreases |arr|
  {
    if |arr| > 0 {
      var perms := Permutations(arr[1..]);
      SpreadAllMembers(arr[0], perms, |arr|, q);
      var p, pos :| p in perms && 0 <= pos < |arr| && q == InsertAt(p, pos, arr[0]);
      PermutationsArePermutations(arr[1..], p);
      assert multiset(q) == multiset(p) + multiset{arr[0]};
      ConsMultiset(arr);
    }
  }

  lemma ConsMultiset<T>(arr: seq<T>)
    requires |arr| > 0
    ensures multiset(arr) == multiset(arr[1..]) + multiset{arr[0]}
  {
    assert arr == [arr[0]] + arr[1..];
  }

  lemma SpreadAllHas<T>(x: T, perms: seq<seq<T>>, n: nat, p: seq<T>, pos: nat)
    requires forall p :: p in perms ==> |p| + 1 == n
    requires p in perms && pos < n
    ensures InsertAt(p, pos, x) in SpreadAll(x, perms, n)
  {
    SpreadAllMembers(x, perms, n, InsertAt(p, pos, x));
  }

  /** Taking out the element at `pos` leaves the others, and putting it back
      at `pos` restores the sequence. */
  lemma RemoveAt<T>(q: seq<T>, pos: nat)
    requires pos < |q|
    ensures multiset(q[..pos] + q[pos + 1..]) == multiset(q) - multiset{q[pos]}
    ensures q == InsertAt(q[..pos] + q[pos + 1..], pos, q[pos])
  {
    var p := q[..pos] + q[pos + 1..];
    assert q == q[..pos] + [q[pos]] + q[pos + 1..];
    assert multiset(q) == multiset(q[..pos]) + multiset{q[pos]} + multiset(q[pos + 1..]);
    assert p[..pos] == q[..pos] && p[pos..] == q[pos + 1..];
  }

  /** Every rearrangement of the input is produced. */
  lemma {:induction false} PermutationsComplete<T>(arr: seq<T>, q: seq<T>)
    requires multiset(q) == multiset(arr)
    ensures q in Permutations(arr)
    decreases |arr|
  {
    if |arr| == 0 {
      assert |q| == |multiset(q)| == 0;
    } else {
      ConsMultiset(arr);
      assert arr[0] in multiset(q);
      var pos :| 0 <= pos < |q| && q[pos] == arr[0];
      var p := q[..pos] + q[pos + 1..];
      RemoveAt(q, pos);
      PermutationsComplete(arr[1..], p);
      assert |q| == |multiset(q)| == |arr|;
      SpreadAllHas(arr[0], Permutations(arr[1..]), |arr|, p, pos);
    }
  }
}
