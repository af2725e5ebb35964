// Sums, bounded deques and orders on sequences of reals, shared by the analytics engines.
module Sequences {

  function Sum(s: seq<real>): real {
    if s == [] then 0.0 else Sum(s[..|s| - 1]) + s[|s| - 1]
  }

  lemma SumAppend(s: seq<real>, x: real)
    ensures Sum(s + [x]) == Sum(s) + x
  {
    assert (s + [x])[..|s|] == s;
  }

  lemma {:induction false} SumConcat(s: seq<real>, t: seq<real>)
    ensures Sum(s + t) == Sum(s) + Sum(t)
  {
    if t == [] {
      assert s + t == s;
    } else {
      SumConcat(s, t[..|t| - 1]);
      assert s + t == (s + t[..|t| - 1]) + [t[|t| - 1]];
      SumAppend(s + t[..|t| - 1], t[|t| - 1]);
    }
  }

  lemma {:induction false} SumBounds(s: seq<real>, lo: real, hi: real)
    requires forall i | 0 <= i < |s| :: lo <= s[i] <= hi
    ensures lo * |s| as real <= Sum(s) <= hi * |s| as real
  {
    if s != [] {
      SumBounds(s[..|s| - 1], lo, hi);
    }
  }

  predicate WithinWeight(x: real, w: real, lo: real, hi: real) {
    w >= 0.0 && lo * w <= x <= hi * w
  }

  // If every x is between lo and hi times its weight, so are the totals, and so is their ratio.
  lemma {:induction false} WeightedSumBounds(xs: seq<real>, ws: seq<real>, lo: real, hi: real)
    requires |xs| == |ws| && forall i | 0 <= i < |xs| :: WithinWeight(xs[i], ws[i], lo, hi)
    ensures WithinWeight(Sum(xs), Sum(ws), lo, hi)
  {
    if xs != [] {
      var n := |xs| - 1;
      WeightedSumBounds(xs[..n], ws[..n], lo, hi);
      assert WithinWeight(xs[n], ws[n], lo, hi);
      Distribute(lo, Sum(ws[..n]), ws[n]);
      Distribute(hi, Sum(ws[..n]), ws[n]);
    }
  }

  lemma RatioBounds(x: real, w: real, lo: real, hi: real)
    requires WithinWeight(x, w, lo, hi) && w > 0.0
    ensures lo <= x / w <= hi
  {
    QuotientBounds(x, w, lo, hi);
  }

  // x added up n times.
  function Times(n: nat, x: real): real {
    if n == 0 then 0.0 else Times(n - 1, x) + x
  }

  lemma {:induction false} TimesIsProduct(n: nat, x: real)
    ensures Times(n, x) == n as real * x
  {
    if n > 0 { TimesIsProduct(n - 1, x); }
  }

  lemma Distribute(c: real, x: real, y: real)
    ensures c * (x + y) == c * x + c * y
  {
  }

  // The last n elements: Python's s[-n:] for n >= 1.
  function Last<T>(s: seq<T>, n: nat): seq<T> {
    if |s| <= n then s else s[|s| - n..]
  }

  lemma LastExactly<T>(s: seq<T>, n: nat, i: nat)
    requires i < |Last(s, n)|
    ensures |Last(s, n)| == if |s| < n then |s| else n
    ensures Last(s, n)[i] == s[|s| - |Last(s, n)| + i]
  {
  }

  // Appending to a deque of bounded length.
  function Push<T>(q: seq<T>, x: T, maxlen: nat): seq<T> {
    Last(q + [x], maxlen)
  }

  lemma PushKeepsTheLast<T>(history: seq<T>, x: T, maxlen: nat)
    ensures Push(Last(history, maxlen), x, maxlen) == Last(history + [x], maxlen)
  {
  }

  lemma LastOfLast<T>(s: seq<T>, n: nat, m: nat)
    requires n <= m
    ensures Last(Last(s, m), n) == Last(s, n)
  {
  }

  ghost predicate NonDecreasing(s: seq<real>) {
    forall i, j | 0 <= i < j < |s| :: s[i] <= s[j]
  }

  ghost predicate Increasing(s: seq<real>) {
    forall i, j | 0 <= i < j < |s| :: s[i] < s[j]
  }

  function Max(x: real, y: real): real {
    if x >= y then x else y
  }

  function Abs(x: real): real {
    if x < 0.0 then -x else x
  }

  lemma ProductSign(x: real, y: real)
    requires x >= 0.0 && y >= 0.0
    ensures x * y >= 0.0
    ensures x * y == 0.0 <==> x == 0.0 || y == 0.0
  {
  }

  lemma QuotientSign(x: real, y: real)
    requires x >= 0.0 && y > 0.0
    ensures x / y >= 0.0
    ensures x / y == 0.0 <==> x == 0.0
  {
    assert (x / y) * y == x;
  }

  lemma QuotientBounds(x: real, y: real, lo: real, hi: real)
    requires y > 0.0 && lo * y <= x <= hi * y
    ensures lo <= x / y <= hi
  {
    var q := x / y;
    assert q * y == x;
    SignOfFactor(q - lo, y);
    SignOfFactor(hi - q, y);
  }

  lemma QuotientAtLeast(x: real, y: real, lo: real)
    requires y > 0.0 && lo * y <= x
    ensures lo <= x / y
  {
    assert x / y * y == x;
    assert (x / y - lo) * y == x - lo * y;
    SignOfFactor(x / y - lo, y);
  }

  lemma QuotientBelow(x: real, y: real, hi: real)
    requires y > 0.0
    ensures x <= hi * y ==> x / y <= hi
    ensures x < hi * y ==> x / y < hi
  {
    var q := x / y;
    assert q * y == x;
    if q > hi { assert (q - hi) * y > 0.0; }
  }

  lemma SignOfFactor(x: real, y: real)
    requires y > 0.0 && x * y >= 0.0
    ensures x >= 0.0
  {
  }
}
