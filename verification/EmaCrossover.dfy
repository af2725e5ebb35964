// On a monotone close series the shorter EMA leads the longer one, which decides what the
// EMA9/EMA21 crossover strategy can emit.
module EmaCrossover {
  import opened Wrappers
  import opened Sequences
  import opened Indicators

  // ---- The strategy ----

  datatype Direction = Buy | Sell

  // A result, or Python's ZeroDivisionError.
  datatype Evaluation =
    | Result(signal: bool, direction: Option<Direction>, confidence: Option<real>, degraded: bool)
    | ZeroDivision

  function Min(x: real, y: real): real {
    if x <= y then x else y
  }

  function Gapped(direction: Direction, gap: real, ema21: real): Evaluation {
    if ema21 == 0.0 then ZeroDivision
    else Result(true, Some(direction), Some(Min(gap / ema21 * 100.0, 1.0)), false)
  }

  function Evaluate(byInterval: map<string, IndicatorValues>, interval: string): Evaluation {
    if interval !in byInterval || byInterval[interval].ema9.None? || byInterval[interval].ema21.None? then
      Result(false, None, None, true)
    else
      var ema9, ema21 := byInterval[interval].ema9.value, byInterval[interval].ema21.value;
      if ema9 > ema21 then Gapped(Buy, ema9 - ema21, ema21)
      else if ema9 < ema21 then Gapped(Sell, ema21 - ema9, ema21)
      else Result(false, None, Some(0.0), false)
  }

  // The whole evaluation: degraded without both averages, silent if they are equal, and otherwise a buy if
  // the short one is above, a sell if below, with the gap in percent of the long one, at most 1, as confidence.
  lemma EvaluationExactly(byInterval: map<string, IndicatorValues>, interval: string)
    ensures
      var missing := interval !in byInterval || byInterval[interval].ema9 == None || byInterval[interval].ema21 == None;
      missing <==> Evaluate(byInterval, interval) == Result(false, None, None, true)
    ensures interval in byInterval && byInterval[interval].ema9.Some? && byInterval[interval].ema21.Some? ==>
      var ema9, ema21 := byInterval[interval].ema9.value, byInterval[interval].ema21.value;
      var r := Evaluate(byInterval, interval);
      if ema9 == ema21 then r == Result(false, None, Some(0.0), false)
      else if ema21 == 0.0 then r == ZeroDivision
      else
        var percent := (100.0 * (if ema9 > ema21 then ema9 - ema21 else ema21 - ema9)) / ema21;
        && r == Result(true, r.direction, r.confidence, false)
        && r.direction == Some(if ema9 > ema21 then Buy else Sell)
        && r.confidence == Some(if percent > 1.0 then 1.0 else percent)
  {
    if interval in byInterval && byInterval[interval].ema9.Some? && byInterval[interval].ema21.Some? {
      var ema9, ema21 := byInterval[interval].ema9.value, byInterval[interval].ema21.value;
      if ema21 != 0.0 {
        Percent(ema9 - ema21, ema21);
        Percent(ema21 - ema9, ema21);
      }
    }
  }

  lemma Percent(gap: real, whole: real)
    requires whole != 0.0
    ensures (100.0 * gap) / whole == gap / whole * 100.0
  {
    var q := gap / whole;
    assert q * whole == gap;
    assert (q * 100.0) * whole == 100.0 * gap;
  }

  // A positive long average makes every signal a confident one: within (0, 1].
  lemma ConfidenceRange(byInterval: map<string, IndicatorValues>, interval: string)
    requires interval in byInterval && byInterval[interval].ema9.Some? && byInterval[interval].ema21.Some?
    ensures
      var ema9, ema21 := byInterval[interval].ema9.value, byInterval[interval].ema21.value;
      var r := Evaluate(byInterval, interval);
      && (r.ZeroDivision? <==> ema21 == 0.0 && ema9 != 0.0)
      && (r.Result? ==> (r.signal <==> ema9 != ema21) && !r.degraded && r.confidence.Some?)
      && (r.Result? && r.signal ==> (0.0 < r.confidence.value <= 1.0 <==> ema21 > 0.0))
  {
    var ema9, ema21 := byInterval[interval].ema9.value, byInterval[interval].ema21.value;
    var gap := if ema9 > ema21 then ema9 - ema21 else ema21 - ema9;
    if ema21 > 0.0 {
      QuotientSign(gap, ema21);
    } else if ema21 < 0.0 {
      QuotientSign(gap, -ema21);
      assert gap / ema21 == -(gap / -ema21);
    }
  }

  // ---- The shorter average leads ----

  lemma RunningMeanBounds(xs: seq<real>, hi: real)
    requires xs != [] && forall i | 0 <= i < |xs| :: xs[i] <= hi
    ensures Mean(xs, |xs|) <= hi
    ensures xs[0] < hi ==> Mean(xs, |xs|) < hi
  {
    SumBelow(xs, hi);
    TimesIsProduct(|xs|, hi);
    QuotientBelow(Sum(xs), |xs| as real, hi);
  }

  lemma {:induction false} SumBelow(xs: seq<real>, hi: real)
    requires forall i | 0 <= i < |xs| :: xs[i] <= hi
    ensures Sum(xs) <= Times(|xs|, hi)
    ensures xs != [] && xs[0] < hi ==> Sum(xs) < Times(|xs|, hi)
  {
    if xs != [] {
      var init := xs[..|xs| - 1];
      SumBelow(init, hi);
      assert init == [] ==> Sum(init) == 0.0 && Times(0, hi) == 0.0;
    }
  }

  // One more close x, no smaller than the mean m of the n >= p before it, lifts the average at least
  // as much as the mean, because the weight of x in the average is the larger one.
  lemma MeanStep(x: real, m: real, e: real, n: nat, p: nat)
    requires 1 <= p <= n && e >= m && x >= m
    ensures Smooth(x, e, p) >= (m * n as real + x) / (n as real + 1.0)
    ensures x > m ==> Smooth(x, e, p) > (m * n as real + x) / (n as real + 1.0)
  {
    var k, c := Weight(p), 1.0 / (n as real + 1.0);
    WeightAbove(n, p);
    assert (m * n as real + x) / (n as real + 1.0) == m + (x - m) * c by { MeanRewritten(x, m, n); }
    assert Smooth(x, e, p) == (m + (x - m) * c) + (x - m) * (k - c) + (e - m) * (1.0 - k);
    ProductSign(x - m, k - c);
    ProductSign(e - m, 1.0 - k);
  }

  lemma MeanRewritten(x: real, m: real, n: nat)
    ensures (m * n as real + x) / (n as real + 1.0) == m + (x - m) * (1.0 / (n as real + 1.0))
  {
    var d := n as real + 1.0;
    var c := 1.0 / d;
    assert c * d == 1.0;
    assert m * n as real + x == m * d + (x - m);
    assert (m * d + (x - m)) / d == (m * d) / d + (x - m) / d;
    assert (m * d) / d == m;
    assert (x - m) / d == (x - m) * c;
  }

  lemma WeightAbove(n: nat, p: nat)
    requires 1 <= p <= n
    ensures Weight(p) > 1.0 / (n as real + 1.0)
  {
    var a, b := p as real + 1.0, n as real + 1.0;
    assert a <= b < 2.0 * b;
    assert 1.0 / b <= 1.0 / a by { ReciprocalOrder(a, b); }
    assert Weight(p) == 2.0 * (1.0 / a);
    assert 1.0 / a > 0.0;
  }

  lemma ReciprocalOrder(a: real, b: real)
    requires 0.0 < a <= b
    ensures 1.0 / b <= 1.0 / a
    ensures a < b ==> 1.0 / b < 1.0 / a
  {
    var x, y := 1.0 / a, 1.0 / b;
    assert x * a == 1.0 && y * b == 1.0;
    QuotientSign(1.0, a);
    ProductSign(x, b - a);
    assert x * b == 1.0 + x * (b - a);
    QuotientBelow(1.0, b, x);
  }

  lemma MeanGrows(xs: seq<real>, x: real)
    requires xs != []
    ensures Mean(xs + [x], |xs| + 1) == (Mean(xs, |xs|) * |xs| as real + x) / (|xs| as real + 1.0)
  {
    SumAppend(xs, x);
    assert Mean(xs, |xs|) * |xs| as real == Sum(xs);
  }

  lemma AboveMeanStep(xs: seq<real>, x: real, e: real, p: nat)
    requires 1 <= p <= |xs| && e >= Mean(xs, |xs|) && x >= Mean(xs, |xs|)
    ensures Smooth(x, e, p) >= Mean(xs + [x], |xs| + 1)
    ensures x > Mean(xs, |xs|) ==> Smooth(x, e, p) > Mean(xs + [x], |xs| + 1)
  {
    MeanStep(x, Mean(xs, |xs|), e, |xs|, p);
    MeanGrows(xs, x);
  }

  // On a rising series every average is at least the mean of all closes so far.
  lemma {:induction false} EmaAboveRunningMean(xs: seq<real>, p: nat)
    requires 1 <= p <= |xs| && NonDecreasing(xs)
    ensures Ema(xs, p) >= Mean(xs, |xs|)
    ensures Increasing(xs) && p < |xs| ==> Ema(xs, p) > Mean(xs, |xs|)
  {
    if |xs| > p {
      var init, x := xs[..|xs| - 1], xs[|xs| - 1];
      EmaAboveRunningMean(init, p);
      RunningMeanBounds(init, x);
      assert Increasing(xs) ==> init[0] < x;
      AboveMeanStep(init, x, Ema(init, p), p);
      assert init + [x] == xs;
    }
  }

  lemma LeadStep(x: real, fast: real, slow: real, p: nat, q: nat)
    requires 1 <= p < q && fast >= slow && x >= slow
    ensures Smooth(x, fast, p) >= Smooth(x, slow, q)
    ensures x > slow ==> Smooth(x, fast, p) > Smooth(x, slow, q)
  {
    var a, b := Weight(p), Weight(q);
    ReciprocalOrder(p as real + 1.0, q as real + 1.0);
    assert a == 2.0 * (1.0 / (p as real + 1.0)) && b == 2.0 * (1.0 / (q as real + 1.0));
    assert Smooth(x, fast, p) - Smooth(x, slow, q) == (fast - slow) * (1.0 - a) + (x - slow) * (a - b);
    ProductSign(fast - slow, 1.0 - a);
    ProductSign(x - slow, a - b);
  }

  // From bar q on, the shorter average dominates the longer one; strictly on a strictly rising series.
  lemma {:induction false} ShortEmaLeads(xs: seq<real>, p: nat, q: nat)
    requires 1 <= p < q <= |xs| && NonDecreasing(xs)
    ensures Ema(xs, p) >= Ema(xs, q)
    ensures Increasing(xs) ==> Ema(xs, p) > Ema(xs, q)
  {
    if |xs| == q {
      EmaAboveRunningMean(xs, p);
    } else {
      var init, x := xs[..|xs| - 1], xs[|xs| - 1];
      ShortEmaLeads(init, p, q);
      EmaStaysWithinCloses(init, q, init[0], init[|init| - 1]);
      LeadStep(x, Ema(init, p), Ema(init, q), p, q);
    }
  }

  // ---- Falling series, by reflection ----

  function Negated(xs: seq<real>): seq<real> {
    seq(|xs|, i requires 0 <= i < |xs| => -xs[i])
  }

  lemma {:induction false} SumNegated(xs: seq<real>)
    ensures Sum(Negated(xs)) == -Sum(xs)
  {
    if xs != [] {
      SumNegated(xs[..|xs| - 1]);
      assert Negated(xs)[..|xs| - 1] == Negated(xs[..|xs| - 1]);
    }
  }

  lemma QuotientNegated(x: real, y: real)
    requires y != 0.0
    ensures (-x) / y == -(x / y)
  {
  }

  lemma {:induction false} EmaNegated(xs: seq<real>, p: nat)
    requires 1 <= p <= |xs|
    ensures Ema(Negated(xs), p) == -Ema(xs, p)
  {
    if |xs| == p {
      SumNegated(xs);
      QuotientNegated(Sum(xs), p as real);
    } else {
      EmaNegated(xs[..|xs| - 1], p);
      assert Negated(xs)[..|xs| - 1] == Negated(xs[..|xs| - 1]);
      SmoothNegated(xs[|xs| - 1], Ema(xs[..|xs| - 1], p), p);
    }
  }

  lemma SmoothNegated(x: real, e: real, p: nat)
    ensures Smooth(-x, -e, p) == -Smooth(x, e, p)
  {
  }

  lemma ShortEmaTrails(xs: seq<real>, p: nat, q: nat)
    requires 1 <= p < q <= |xs| && NonDecreasing(Negated(xs))
    ensures Ema(xs, p) <= Ema(xs, q)
    ensures Increasing(Negated(xs)) ==> Ema(xs, p) < Ema(xs, q)
  {
    ShortEmaLeads(Negated(xs), p, q);
    EmaNegated(xs, p);
    EmaNegated(xs, q);
  }

  // ---- What the strategy emits ----

  ghost predicate AllPositive(xs: seq<real>) {
    forall i | 0 <= i < |xs| :: xs[i] > 0.0
  }

  lemma {:induction false} LowestClose(xs: seq<real>) returns (lo: real, hi: real)
    requires xs != [] && AllPositive(xs)
    ensures 0.0 < lo <= hi && forall i | 0 <= i < |xs| :: lo <= xs[i] <= hi
  {
    if |xs| == 1 {
      lo, hi := xs[0], xs[0];
    } else {
      var x := xs[|xs| - 1];
      lo, hi := LowestClose(xs[..|xs| - 1]);
      lo, hi := Min(lo, x), Max(hi, x);
    }
  }

  // The engine's values after any run whose closes rise: never a sell, and on strictly rising
  // closes a buy with confidence in (0, 1].
  lemma RisingClosesNeverSell(ops: seq<Op>, interval: string)
    requires var xs := Closes(Bars(ops)); |xs| >= 21 && AllPositive(xs) && NonDecreasing(xs)
    ensures var r := Evaluate(map[interval := Read(Run(ops))], interval);
      && r.Result? && !r.degraded && r.direction != Some(Sell)
      && (Increasing(Closes(Bars(ops))) ==> r.signal && r.direction == Some(Buy) && 0.0 < r.confidence.value <= 1.0)
  {
    var xs := Closes(Bars(ops));
    IncrementalEqualsBatch(ops);
    ShortEmaLeads(xs, 9, 21);
    var lo, hi := LowestClose(xs);
    EmaStaysWithinCloses(xs, 21, lo, hi);
    ConfidenceRange(map[interval := Read(Run(ops))], interval);
  }

  lemma FallingClosesNeverBuy(ops: seq<Op>, interval: string)
    requires var xs := Closes(Bars(ops)); |xs| >= 21 && AllPositive(xs) && NonDecreasing(Negated(xs))
    ensures var r := Evaluate(map[interval := Read(Run(ops))], interval);
      && r.Result? && !r.degraded && r.direction != Some(Buy)
      && (Increasing(Negated(Closes(Bars(ops)))) ==>
        r.signal && r.direction == Some(Sell) && 0.0 < r.confidence.value <= 1.0)
  {
    var xs := Closes(Bars(ops));
    IncrementalEqualsBatch(ops);
    ShortEmaTrails(xs, 9, 21);
    var lo, hi := LowestClose(xs);
    EmaStaysWithinCloses(xs, 21, lo, hi);
    ConfidenceRange(map[interval := Read(Run(ops))], interval);
  }

  // ---- When the strategy raises ----

  lemma SmoothSign(x: real, e: real, p: nat)
    requires p >= 2 && x >= 0.0 && e >= 0.0
    ensures Smooth(x, e, p) >= 0.0
    ensures Smooth(x, e, p) == 0.0 <==> x == 0.0 && e == 0.0
  {
    var k := Weight(p);
    ReciprocalOrder(3.0, p as real + 1.0);
    assert k == 2.0 * (1.0 / (p as real + 1.0)) < 1.0;
    ProductSign(x, k);
    ProductSign(e, 1.0 - k);
  }

  // An average of non-negative closes is zero only while all of them are.
  lemma {:induction false} EmaSign(xs: seq<real>, p: nat)
    requires 2 <= p <= |xs| && NonNegative(xs)
    ensures Ema(xs, p) >= 0.0
    ensures Ema(xs, p) == 0.0 <==> AllZero(xs)
  {
    if |xs| == p {
      SumSign(xs);
      QuotientSign(Sum(xs), p as real);
    } else {
      var init, x := xs[..|xs| - 1], xs[|xs| - 1];
      EmaSign(init, p);
      SmoothSign(x, Ema(init, p), p);
      assert xs == init + [x];
      AllZeroAppend(init, x);
    }
  }

  // After any run whose closes are not negative, rising, falling or neither, the strategy does not raise,
  // and whatever it signals has a confidence in (0, 1].
  lemma NonNegativeClosesNeverRaise(ops: seq<Op>, interval: string)
    requires var xs := Closes(Bars(ops)); |xs| >= 21 && NonNegative(xs)
    ensures var r := Evaluate(map[interval := Read(Run(ops))], interval);
      r.Result? && !r.degraded && (r.signal ==> 0.0 < r.confidence.value <= 1.0)
  {
    var xs := Closes(Bars(ops));
    IncrementalEqualsBatch(ops);
    EmaSign(xs, 9);
    EmaSign(xs, 21);
    ConfidenceRange(map[interval := Read(Run(ops))], interval);
  }

  function Klines(bars: seq<Bar>): seq<Op> {
    if bars == [] then [] else Klines(bars[..|bars| - 1]) + [Kline(bars[|bars| - 1])]
  }

  lemma {:induction false} BarsOfKlines(bars: seq<Bar>)
    ensures Bars(Klines(bars)) == bars
  {
    if bars != [] {
      var init, last := bars[..|bars| - 1], bars[|bars| - 1];
      BarsOfKlines(init);
      assert Klines(bars)[..|Klines(init)|] == Klines(init);
    }
  }

  // Nineteen closes of 0, then 1 and -1: the mean of all is 0, the short average is not.
  function CancellingCloses(): seq<real> {
    seq(19, i => 0.0) + [1.0] + [-1.0]
  }

  lemma CancellingAverages()
    ensures Ema(CancellingCloses(), 21) == 0.0 && Ema(CancellingCloses(), 9) == -0.04
  {
    var zeros: seq<real> := seq(19, i => 0.0);
    var xs := CancellingCloses();
    SumSign(zeros);
    EmaSign(zeros, 9);
    SumAppend(zeros, 1.0);
    SumAppend(zeros + [1.0], -1.0);
    assert xs[..20] == zeros + [1.0] && (zeros + [1.0])[..19] == zeros;
    assert Weight(9) == 0.2;
    assert Ema(zeros + [1.0], 9) == Smooth(1.0, 0.0, 9) == 0.2;
    assert Ema(xs, 9) == Smooth(-1.0, 0.2, 9);
  }

  // With a negative close it can raise.
  lemma NegativeClosesCanRaise(interval: string)
    ensures exists ops: seq<Op> ::
      Closes(Bars(ops)) == CancellingCloses() && Evaluate(map[interval := Read(Run(ops))], interval) == ZeroDivision
  {
    var xs := CancellingCloses();
    var bars := seq(21, i requires 0 <= i < 21 => Bar(xs[i], xs[i], xs[i], 1.0));
    var ops := Klines(bars);
    BarsOfKlines(bars);
    assert Closes(bars) == xs;
    IncrementalEqualsBatch(ops);
    CancellingAverages();
    ConfidenceRange(map[interval := Read(Run(ops))], interval);
    assert Evaluate(map[interval := Read(Run(ops))], interval) == ZeroDivision;
  }
}
