module Options {
  datatype Option<+T> = None | Some(value: T)
}

/** Rounding and summation shared by the money-handling modules. */
module Arithmetic {

  function Max(a: int, b: int): (r: int)
    ensures r >= a && r >= b && (r == a || r == b)
  {
    if a >= b then a else b
  }

  /** n/d rounded half up (Decimal.quantize with ROUND_HALF_UP, n >= 0), by taking whole d's off n. */
  function HalfUp(n: nat, d: nat): nat
    requires d > 0
  {
    if 2 * n < d then 0 else if n < d then 1 else 1 + HalfUp(n - d, d)
  }

  /** HalfUp is the nearest integer, ties going up. */
  lemma {:induction false} HalfUpNearest(n: nat, d: nat)
    requires d > 0
    ensures 2 * n < 2 * (d * HalfUp(n, d)) + d && 2 * (d * HalfUp(n, d)) <= 2 * n + d
  {
    if 2 * n >= d && n >= d {
      HalfUpNearest(n - d, d);
      assert d * (1 + HalfUp(n - d, d)) == d + d * HalfUp(n - d, d);
    }
  }

  /** n/d rounded half to even (Python's round, n >= 0), by taking pairs of d's off n. */
  function HalfEven(n: nat, d: nat): nat
    requires d > 0
  {
    if 2 * n <= d then 0
    else if 2 * n < 3 * d then 1
    else if n < 2 * d then 2
    else 2 + HalfEven(n - 2 * d, d)
  }

  /** HalfEven is a nearest integer, and the even one of the two when there is a tie. */
  lemma {:induction false} HalfEvenNearest(n: nat, d: nat)
    requires d > 0
    ensures var r := HalfEven(n, d);
            && 2 * n <= 2 * (d * r) + d && 2 * (d * r) <= 2 * n + d
            && (2 * n == 2 * (d * r) + d || 2 * (d * r) == 2 * n + d ==> r % 2 == 0)
  {
    if 2 * n >= 3 * d && n >= 2 * d {
      HalfEvenNearest(n - 2 * d, d);
      assert d * (2 + HalfEven(n - 2 * d, d)) == 2 * d + d * HalfEven(n - 2 * d, d);
    }
  }

  /** Rounding half to even is monotone too. */
  lemma {:induction false} HalfEvenMonotone(m: nat, n: nat, d: nat)
    requires d > 0 && m <= n
    ensures HalfEven(m, d) <= HalfEven(n, d)
  {
    var a, b := HalfEven(m, d), HalfEven(n, d);
    HalfEvenNearest(m, d);
    HalfEvenNearest(n, d);
    if a > b {
      ProductGap(d, b, a);
    }
  }

  lemma ProductGap(d: nat, a: int, b: int)
    requires a < b
    ensures d * a + d <= d * b
  {
    assert d * b == d * a + d * (b - a);
    assert d * (b - a) == d + d * (b - a - 1);
    NonNegativeProduct(d, b - a - 1);
  }

  lemma NonNegativeProduct(a: nat, b: nat)
    ensures a * b >= 0
  {
  }

  /** Rounding n/d is monotone in n. */
  lemma {:induction false} HalfUpMonotone(m: nat, n: nat, d: nat)
    requires d > 0 && m <= n
    ensures HalfUp(m, d) <= HalfUp(n, d)
  {
    var a, b := HalfUp(m, d), HalfUp(n, d);
    HalfUpNearest(m, d);
    HalfUpNearest(n, d);
    if a > b {
      ProductGap(d, b, a);
    }
  }

  /** Rounding a value that does not exceed the whole number k does not exceed k. */
  lemma {:induction false} HalfUpAtMost(n: nat, d: nat, k: nat)
    requires d > 0 && n <= d * k
    ensures HalfUp(n, d) <= k
  {
    var r := HalfUp(n, d);
    HalfUpNearest(n, d);
    if r > k {
      ProductGap(d, k, r);
    }
  }

  /** A whole number is its own rounding. */
  lemma {:induction false} HalfUpExact(k: nat, d: nat)
    requires d > 0
    ensures HalfUp(d * k, d) == k
  {
    var r := HalfUp(d * k, d);
    HalfUpNearest(d * k, d);
    if r > k {
      ProductGap(d, k, r);
    } else if r < k {
      ProductGap(d, r, k);
    }
  }

  /** Sum of f over the elements of s. */
  function SumBy<T>(s: seq<T>, f: T -> int): int
  {
    if s == [] then 0 else f(s[0]) + SumBy(s[1..], f)
  }

  lemma SumByOne<T>(x: T, f: T -> int)
    ensures SumBy([x], f) == f(x)
  {
  }

  lemma SumByTwo<T>(x: T, y: T, f: T -> int)
    ensures SumBy([x, y], f) == f(x) + f(y)
  {
    assert [x, y][1..] == [y];
    SumByOne(y, f);
  }

  lemma {:induction false} SumByConcat<T>(s: seq<T>, t: seq<T>, f: T -> int)
    ensures SumBy(s + t, f) == SumBy(s, f) + SumBy(t, f)
  {
    if s == [] {
      assert s + t == t;
    } else {
      assert (s + t)[1..] == s[1..] + t;
      SumByConcat(s[1..], t, f);
      assert (s + t)[0] == s[0];
    }
  }

  lemma {:induction false} SumBySnoc<T>(s: seq<T>, x: T, f: T -> int)
    ensures SumBy(s + [x], f) == SumBy(s, f) + f(x)
  {
    SumByConcat(s, [x], f);
  }

  lemma SumByTake<T>(s: seq<T>, k: nat, f: T -> int)
    requires k < |s|
    ensures SumBy(s[..k + 1], f) == SumBy(s[..k], f) + f(s[k])
  {
    assert s[..k + 1] == s[..k] + [s[k]];
    SumBySnoc(s[..k], s[k], f);
  }

  lemma {:induction false} SumByNonNegative<T>(s: seq<T>, f: T -> int)
    requires forall x | x in s :: f(x) >= 0
    ensures SumBy(s, f) >= 0
  {
    if s != [] {
      SumByNonNegative(s[1..], f);
    }
  }

  /** Two functions that agree on the elements of s have the same sum over s. */
  lemma {:induction false} SumByAgree<T>(s: seq<T>, f: T -> int, g: T -> int)
    requires forall x | x in s :: f(x) == g(x)
    ensures SumBy(s, f) == SumBy(s, g)
  {
    if s != [] {
      SumByAgree(s[1..], f, g);
    }
  }

  /** Sums over two sequences of the same length compare as their terms do. */
  lemma {:induction false} PairedSums<S, T>(s: seq<S>, t: seq<T>, g: S -> int, h: T -> int)
    requires |s| == |t| && forall i | 0 <= i < |s| :: g(s[i]) <= h(t[i])
    ensures SumBy(s, g) <= SumBy(t, h)
    ensures (forall i | 0 <= i < |s| :: g(s[i]) == h(t[i])) ==> SumBy(s, g) == SumBy(t, h)
  {
    if s != [] {
      PairedSums(s[1..], t[1..], g, h);
    }
  }

  /** A function that is the sum of two others term by term has the sum of their sums. */
  lemma {:induction false} SumByPlus<T>(s: seq<T>, f: T -> int, g: T -> int, h: T -> int)
    requires forall i | 0 <= i < |s| :: f(s[i]) == g(s[i]) + h(s[i])
    ensures SumBy(s, f) == SumBy(s, g) + SumBy(s, h)
  {
    if s != [] {
      SumByPlus(s[1..], f, g, h);
    }
  }

  /** The sum over an updated sequence changes by the change at the updated position. */
  lemma {:induction false} SumByUpdate<T>(s: seq<T>, i: nat, x: T, f: T -> int)
    requires i < |s|
    ensures SumBy(s[i := x], f) == SumBy(s, f) - f(s[i]) + f(x)
  {
    if i == 0 {
      assert s[0 := x][1..] == s[1..];
    } else {
      assert s[i := x][1..] == s[1..][i - 1 := x];
      SumByUpdate(s[1..], i - 1, x, f);
    }
  }

  /** Elements of s satisfying p, in order. */
  function Filter<T>(s: seq<T>, p: T -> bool): (r: seq<T>)
    ensures forall x | x in r :: x in s && p(x)
    ensures forall x | x in s && p(x) :: x in r
    ensures |r| <= |s|
  {
    if s == [] then []
    else if p(s[0]) then [s[0]] + Filter(s[1..], p)
    else Filter(s[1..], p)
  }

  /** A predicate and its complement split a sequence: nothing is lost or duplicated, sums add up. */
  lemma {:induction false} FilterPartition<T>(s: seq<T>, p: T -> bool, q: T -> bool, f: T -> int)
    requires forall x | x in s :: p(x) == !q(x)
    ensures multiset(Filter(s, p)) + multiset(Filter(s, q)) == multiset(s)
    ensures SumBy(Filter(s, p), f) + SumBy(Filter(s, q), f) == SumBy(s, f)
    ensures |Filter(s, p)| + |Filter(s, q)| == |s|
  {
    if s != [] {
      FilterPartition(s[1..], p, q, f);
      assert s == [s[0]] + s[1..];
    }
  }

  lemma {:induction false} FilterAll<T>(s: seq<T>, p: T -> bool)
    ensures (forall x | x in s :: p(x)) <==> Filter(s, p) == s
    ensures |Filter(s, p)| == |s| ==> Filter(s, p) == s
  {
    if s != [] {
      FilterAll(s[1..], p);
      assert s == [s[0]] + s[1..];
      assert forall x | x in s :: x == s[0] || x in s[1..];
      if !p(s[0]) {
        assert |Filter(s, p)| <= |s[1..]|;
      }
    }
  }

  lemma {:induction false} FilterNone<T>(s: seq<T>, p: T -> bool)
    requires forall x | x in s :: !p(x)
    ensures Filter(s, p) == []
  {
    if s != [] {
      FilterNone(s[1..], p);
    }
  }

  lemma {:induction false} FilterConcat<T>(s: seq<T>, t: seq<T>, p: T -> bool)
    ensures Filter(s + t, p) == Filter(s, p) + Filter(t, p)
  {
    if s == [] {
      assert s + t == t;
    } else {
      assert (s + t)[1..] == s[1..] + t;
      FilterConcat(s[1..], t, p);
    }
  }

  lemma {:induction false} FilterAgrees<T>(s: seq<T>, p: T -> bool, q: T -> bool)
    requires forall x | x in s :: p(x) == q(x)
    ensures Filter(s, p) == Filter(s, q)
  {
    if s != [] {
      FilterAgrees(s[1..], p, q);
    }
  }

  /** A filter that only keeps what another one keeps can follow it. */
  lemma {:induction false} FilterWithin<T>(s: seq<T>, p: T -> bool, q: T -> bool)
    requires forall x | x in s :: q(x) ==> p(x)
    ensures Filter(Filter(s, p), q) == Filter(s, q)
  {
    if s != [] {
      FilterWithin(s[1..], p, q);
      if p(s[0]) {
        assert ([s[0]] + Filter(s[1..], p))[1..] == Filter(s[1..], p);
      }
    }
  }

  /** A common positive factor can be cancelled from a two-sided bound. */
  lemma CancelFactor(k: nat, x: int, y: int)
    requires k > 0 && -(k * y) <= k * x <= k * y
    ensures -y <= x <= y
  {
    if x > y {
      ProductGap(k, y, x);
    } else if x < -y {
      ProductGap(k, x, -y);
    }
  }
}
