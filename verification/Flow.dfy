// Trade-flow statistics: the running CVD, windowed sums, and the least-squares CVD slope.
module Flow {
  import opened Wrappers
  import opened Sequences

  datatype Trade = Trade(price: real, qty: real, isBuyerMaker: bool, timestampMs: int)

  // Positive for a taker buy, negative for a taker sell.
  function Delta(t: Trade): real {
    if t.isBuyerMaker then -t.qty else t.qty
  }

  function Deltas(ts: seq<Trade>): seq<real> {
    seq(|ts|, i requires 0 <= i < |ts| => Delta(ts[i]))
  }

  // The quantity traded on one side of the book.
  function SideVolume(ts: seq<Trade>, buyerMaker: bool): real {
    if ts == [] then 0.0
    else
      var t := ts[|ts| - 1];
      SideVolume(ts[..|ts| - 1], buyerMaker) + (if t.isBuyerMaker == buyerMaker then t.qty else 0.0)
  }

  function TotalQty(ts: seq<Trade>): real {
    if ts == [] then 0.0 else TotalQty(ts[..|ts| - 1]) + ts[|ts| - 1].qty
  }

  // ---- Deltas, volumes and CVD agree ----

  lemma {:induction false} DeltaIsBuyMinusSell(ts: seq<Trade>)
    ensures Sum(Deltas(ts)) == SideVolume(ts, false) - SideVolume(ts, true)
    ensures TotalQty(ts) == SideVolume(ts, false) + SideVolume(ts, true)
  {
    if ts != [] {
      DeltaIsBuyMinusSell(ts[..|ts| - 1]);
      assert Deltas(ts)[..|ts| - 1] == Deltas(ts[..|ts| - 1]);
    }
  }

  // A taker buy, whose maker sells, adds to the buys and to the delta; a taker sell does the opposite.
  lemma OneMoreTrade(ts: seq<Trade>, t: Trade)
    ensures Sum(Deltas(ts + [t])) == Sum(Deltas(ts)) + (if t.isBuyerMaker then -t.qty else t.qty)
    ensures SideVolume(ts + [t], false) == SideVolume(ts, false) + (if t.isBuyerMaker then 0.0 else t.qty)
    ensures SideVolume(ts + [t], true) == SideVolume(ts, true) + (if t.isBuyerMaker then t.qty else 0.0)
  {
    assert Deltas(ts + [t]) == Deltas(ts) + [Delta(t)];
    SumAppend(Deltas(ts), Delta(t));
    assert (ts + [t])[..|ts|] == ts;
  }

  lemma {:induction false} VolumesNonNegative(ts: seq<Trade>)
    requires forall i | 0 <= i < |ts| :: ts[i].qty >= 0.0
    ensures SideVolume(ts, false) >= 0.0 && SideVolume(ts, true) >= 0.0
  {
    if ts != [] { VolumesNonNegative(ts[..|ts| - 1]); }
  }

  function Aggression(ts: seq<Trade>): Option<real> {
    if ts == [] || TotalQty(ts) == 0.0 then None else Some(SideVolume(ts, false) / TotalQty(ts))
  }

  lemma ShareIsOne(buy: real, sell: real)
    requires buy + sell > 0.0
    ensures buy / (buy + sell) == 1.0 <==> sell == 0.0
  {
    assert buy / (buy + sell) * (buy + sell) == buy;
  }

  // The ratio is a share: buys over buys plus sells.
  lemma AggressionIsAShare(ts: seq<Trade>)
    requires forall i | 0 <= i < |ts| :: ts[i].qty >= 0.0
    ensures Aggression(ts).Some? ==> 0.0 <= Aggression(ts).value <= 1.0
    ensures Aggression(ts).Some? ==> (Aggression(ts).value == 1.0 <==> SideVolume(ts, true) == 0.0)
    ensures Aggression(ts).None? <==> SideVolume(ts, false) == 0.0 && SideVolume(ts, true) == 0.0
    ensures Aggression(ts).Some? ==>
      Aggression(ts).value * (SideVolume(ts, false) + SideVolume(ts, true)) == SideVolume(ts, false)
  {
    DeltaIsBuyMinusSell(ts);
    VolumesNonNegative(ts);
    if TotalQty(ts) > 0.0 {
      QuotientBounds(SideVolume(ts, false), TotalQty(ts), 0.0, 1.0);
      ShareIsOne(SideVolume(ts, false), SideVolume(ts, true));
    }
  }

  // ---- The least-squares slope ----

  // The running CVD after each trade of the window.
  function Cumulative(ds: seq<real>): seq<real> {
    if ds == [] then [] else Cumulative(ds[..|ds| - 1]) + [Sum(ds)]
  }

  // Each entry is the one before it plus the next delta.
  ghost predicate RunningSums(ys: seq<real>, ds: seq<real>) {
    |ys| == |ds| && forall i {:trigger ds[i]} | 0 <= i < |ds| :: ys[i] == (if i == 0 then 0.0 else ys[i - 1]) + ds[i]
  }

  lemma {:induction false} CumulativeRuns(ds: seq<real>)
    ensures RunningSums(Cumulative(ds), ds)
    ensures ds != [] ==> Cumulative(ds)[|ds| - 1] == Sum(ds)
  {
    if ds != [] {
      var init := ds[..|ds| - 1];
      CumulativeRuns(init);
      var ys := Cumulative(ds);
      forall i | 0 <= i < |ds| ensures ys[i] == (if i == 0 then 0.0 else ys[i - 1]) + ds[i] {
        if i < |init| {
          assert init[i] == ds[i] && ys[i] == Cumulative(init)[i];
        } else {
          assert init == [] ==> Sum(init) == 0.0;
        }
      }
    }
  }

  // Sum over i < k of (i - c) * (ys[i] - m).
  function Cross(ys: seq<real>, k: nat, c: real, m: real): real
    requires k <= |ys|
  {
    if k == 0 then 0.0 else Cross(ys, k - 1, c, m) + ((k - 1) as real - c) * (ys[k - 1] - m)
  }

  // Sum over i < n of (i - c) squared.
  function Spread(n: nat, c: real): real {
    if n == 0 then 0.0 else Spread(n - 1, c) + ((n - 1) as real - c) * ((n - 1) as real - c)
  }

  function Slope(ds: seq<real>): Option<real> {
    if |ds| < 3 then None
    else
      var ys, n := Cumulative(ds), |ds|;
      CumulativeRuns(ds);
      if Spread(n, Centre(n)) == 0.0 then None
      else Some(Cross(ys, n, Centre(n), Sum(ys) / n as real) / Spread(n, Centre(n)))
  }

  // The mean position of a window of n.
  function Centre(n: nat): real {
    (n as real - 1.0) / 2.0
  }

  // The weight of the j-th delta in the numerator: it counts at every later position, so this is the
  // sum of i - Centre(n) over j <= i < n.
  function Weight(j: nat, n: nat): real {
    if j == 0 then 0.0 else Weight(j - 1, n) - ((j - 1) as real - Centre(n))
  }

  lemma {:induction false} WeightClosedForm(j: nat, n: nat)
    ensures Weight(j, n) == j as real * (n as real - j as real) / 2.0
  {
    if j > 0 { WeightClosedForm(j - 1, n); }
  }

  // Sum over 1 <= j < k of Weight(j, n) * ds[j].
  function Weighted(ds: seq<real>, k: nat, n: nat): real
    requires k <= |ds|
  {
    if k <= 1 then 0.0 else Weighted(ds, k - 1, n) + Weight(k - 1, n) * ds[k - 1]
  }

  function WeightTotal(k: nat, n: nat): real {
    if k <= 1 then 0.0 else WeightTotal(k - 1, n) + Weight(k - 1, n)
  }

  lemma PartsStep(u: real, v: real, dev: real, before: real, y: real, d: real, m: real)
    requires dev == u - v && y == before + d
    ensures -(u * (before - m)) + dev * (y - m) == u * d - v * (y - m)
  {
    var z := y - m;
    assert dev * z == u * z - v * z;
    assert u * z == u * (before - m) + u * d;
  }

  lemma WeightDrop(k: nat, n: nat)
    requires k >= 1
    ensures (k - 1) as real - Centre(n) == Weight(k - 1, n) - Weight(k, n)
    ensures Weight(0, n) == 0.0
  {
  }

  // One more position, with u and v the weights before and after it.
  lemma CrossStep(cross: real, weighted: real, u: real, v: real, dev: real, gap: real, d: real)
    requires dev == u - v && cross == weighted - u * (gap - d)
    ensures cross + dev * gap == (weighted + u * d) - v * gap
  {
    PartsStep(u, v, dev, gap - d, gap, d, 0.0);
  }

  lemma FirstCross(ys: seq<real>, ds: seq<real>, n: nat, m: real)
    requires |ys| >= 1 && |ds| >= 1
    ensures Cross(ys, 1, Centre(n), m) == Weighted(ds, 1, n) - Weight(1, n) * (ys[0] - m)
  {
    assert Cross(ys, 0, Centre(n), m) == 0.0;
    WeightDrop(1, n);
  }

  lemma NextSum(ys: seq<real>, ds: seq<real>, k: nat)
    requires RunningSums(ys, ds) && 2 <= k <= |ds|
    ensures ys[k - 1] == ys[k - 2] + ds[k - 1]
  {
    var d := ds[k - 1];
  }

  lemma CrossByPartsStep(ds: seq<real>, ys: seq<real>, k: nat, n: nat, m: real, gap: real)
    requires 2 <= k <= |ds| == |ys| && gap == ys[k - 1] - m
    requires Cross(ys, k - 1, Centre(n), m) == Weighted(ds, k - 1, n) - Weight(k - 1, n) * (gap - ds[k - 1])
    ensures Cross(ys, k, Centre(n), m) == Weighted(ds, k, n) - Weight(k, n) * gap
  {
    WeightDrop(k, n);
    CrossStep(Cross(ys, k - 1, Centre(n), m), Weighted(ds, k - 1, n), Weight(k - 1, n), Weight(k, n),
              (k - 1) as real - Centre(n), gap, ds[k - 1]);
  }

  // Summation by parts: after k positions the numerator is the weighted deltas, less the weight at k
  // times the current deviation from the mean.
  lemma {:induction false} CrossByParts(ds: seq<real>, ys: seq<real>, k: nat, n: nat, m: real, gap: real)
    requires 1 <= k <= |ds| == n && RunningSums(ys, ds) && gap == ys[k - 1] - m
    ensures Cross(ys, k, Centre(n), m) == Weighted(ds, k, n) - Weight(k, n) * gap
  {
    if k == 1 {
      FirstCross(ys, ds, n, m);
    } else {
      NextSum(ys, ds, k);
      CrossByParts(ds, ys, k - 1, n, m, gap - ds[k - 1]);
      CrossByPartsStep(ds, ys, k, n, m, gap);
    }
  }

  lemma SpreadStep(spread: real, total: real, u: real, v: real, dev: real)
    requires dev == u - v && spread == total - u * (dev - 1.0)
    ensures spread + dev * dev == (total + u) - v * dev
  {
    PartsStep(u, v, dev, dev - 1.0, dev, 1.0, 0.0);
  }

  lemma SpreadUnfolds(k: nat, n: nat, dev: real)
    requires 2 <= k && dev == (k - 1) as real - Centre(n)
    ensures Spread(k, Centre(n)) == Spread(k - 1, Centre(n)) + dev * dev
    ensures WeightTotal(k, n) == WeightTotal(k - 1, n) + Weight(k - 1, n)
    ensures dev == Weight(k - 1, n) - Weight(k, n) && (k - 2) as real - Centre(n) == dev - 1.0
  {
    WeightDrop(k, n);
  }

  lemma SpreadByPartsStep(k: nat, n: nat, dev: real)
    requires 2 <= k && dev == (k - 1) as real - Centre(n)
    requires Spread(k - 1, Centre(n)) == WeightTotal(k - 1, n) - Weight(k - 1, n) * (dev - 1.0)
    ensures Spread(k, Centre(n)) == WeightTotal(k, n) - Weight(k, n) * dev
  {
    SpreadUnfolds(k, n, dev);
    SpreadStep(Spread(k - 1, Centre(n)), WeightTotal(k - 1, n), Weight(k - 1, n), Weight(k, n), dev);
  }

  lemma {:induction false} SpreadByParts(k: nat, n: nat, dev: real)
    requires 1 <= k <= n && dev == (k - 1) as real - Centre(n)
    ensures Spread(k, Centre(n)) == WeightTotal(k, n) - Weight(k, n) * dev
  {
    if k == 1 {
      FirstSpread(n);
    } else {
      SpreadByParts(k - 1, n, dev - 1.0);
      SpreadByPartsStep(k, n, dev);
    }
  }

  lemma FirstSpread(n: nat)
    ensures Spread(1, Centre(n)) == WeightTotal(1, n) - Weight(1, n) * (0.0 - Centre(n))
  {
    assert Spread(0, Centre(n)) == 0.0;
    WeightDrop(1, n);
  }

  lemma {:induction false} SpreadClosedForm(k: nat, c: real)
    ensures Spread(k, c) == k as real * (k as real - 1.0) * (2.0 * k as real - 1.0) / 6.0
                            - c * k as real * (k as real - 1.0) + c * c * k as real
  {
    if k > 0 { SpreadClosedForm(k - 1, c); }
  }

  lemma SpreadOfAWindow(n: nat)
    ensures Spread(n, Centre(n)) == n as real * (n as real * n as real - 1.0) / 12.0
  {
    SpreadClosedForm(n, Centre(n));
  }

  lemma SpreadIsPositive(n: nat)
    requires n >= 2
    ensures Spread(n, Centre(n)) > 0.0
  {
    SpreadOfAWindow(n);
    ProductSign(n as real, n as real - 2.0);
    ProductSign(n as real, n as real * n as real - 1.0);
  }

  lemma WholeWindow(ds: seq<real>, m: real)
    requires |ds| >= 1
    ensures |Cumulative(ds)| == |ds|
    ensures Cross(Cumulative(ds), |ds|, Centre(|ds|), m) == Weighted(ds, |ds|, |ds|)
    ensures Spread(|ds|, Centre(|ds|)) == WeightTotal(|ds|, |ds|)
  {
    CumulativeRuns(ds);
    WeightClosedForm(|ds|, |ds|);
    CrossByParts(ds, Cumulative(ds), |ds|, |ds|, m, Cumulative(ds)[|ds| - 1] - m);
    SpreadByParts(|ds|, |ds|, (|ds| - 1) as real - Centre(|ds|));
  }

  // The slope is an average of the deltas after the first, with positive weights.
  lemma SlopeIsAWeightedMean(ds: seq<real>)
    requires |ds| >= 3
    ensures WeightTotal(|ds|, |ds|) > 0.0
    ensures Slope(ds) == Some(Weighted(ds, |ds|, |ds|) / WeightTotal(|ds|, |ds|))
  {
    WholeWindow(ds, Sum(Cumulative(ds)) / |ds| as real);
    SpreadIsPositive(|ds|);
  }

  lemma SlopeNeedsThreeTrades(ds: seq<real>)
    ensures Slope(ds).Some? <==> |ds| >= 3
  {
    if |ds| >= 3 { SlopeIsAWeightedMean(ds); }
  }

  lemma WeightPositive(j: nat, n: nat)
    requires 1 <= j < n
    ensures Weight(j, n) > 0.0
  {
    WeightClosedForm(j, n);
    ProductSign(j as real, n as real - j as real);
  }

  lemma BoundStep(lo: real, hi: real, total: real, weighted: real, w: real, d: real)
    requires WithinWeight(weighted, total, lo, hi) && w >= 0.0 && lo <= d <= hi
    ensures WithinWeight(weighted + w * d, total + w, lo, hi)
  {
    ProductSign(w, d - lo);
    ProductSign(w, hi - d);
    assert w * (d - lo) == w * d - lo * w && w * (hi - d) == hi * w - w * d;
  }

  lemma {:induction false} WeightedBounds(ds: seq<real>, k: nat, n: nat, lo: real, hi: real)
    requires k <= |ds| == n && forall j | 1 <= j < n :: lo <= ds[j] <= hi
    ensures WithinWeight(Weighted(ds, k, n), WeightTotal(k, n), lo, hi)
  {
    if k > 1 {
      WeightedBounds(ds, k - 1, n, lo, hi);
      WeightPositive(k - 1, n);
      BoundStep(lo, hi, WeightTotal(k - 1, n), Weighted(ds, k - 1, n), Weight(k - 1, n), ds[k - 1]);
    }
  }

  // The slope exists for every window of three or more trades and lies between the smallest and the
  // largest signed delta after the first trade; the first trade does not count at all.
  lemma SlopeBounds(ds: seq<real>, lo: real, hi: real)
    requires |ds| >= 3 && forall j | 1 <= j < |ds| :: lo <= ds[j] <= hi
    ensures Slope(ds).Some? && lo <= Slope(ds).value <= hi
  {
    SlopeIsAWeightedMean(ds);
    WeightedBounds(ds, |ds|, |ds|, lo, hi);
    RatioBounds(Weighted(ds, |ds|, |ds|), WeightTotal(|ds|, |ds|), lo, hi);
  }

  lemma {:induction false} WeightedIgnoresTheFirst(ds: seq<real>, es: seq<real>, k: nat, n: nat)
    requires k <= |ds| == |es| && forall j | 1 <= j < |ds| :: ds[j] == es[j]
    ensures Weighted(ds, k, n) == Weighted(es, k, n)
  {
    if k > 1 { WeightedIgnoresTheFirst(ds, es, k - 1, n); }
  }

  lemma SlopeIgnoresTheFirst(ds: seq<real>, es: seq<real>)
    requires |ds| == |es| && forall j | 1 <= j < |ds| :: ds[j] == es[j]
    ensures Slope(ds) == Slope(es)
  {
    if |ds| >= 3 {
      SlopeIsAWeightedMean(ds);
      SlopeIsAWeightedMean(es);
      WeightedIgnoresTheFirst(ds, es, |ds|, |ds|);
    }
  }

  // Equal-size buys of q have slope exactly q, and buy-only flow never slopes down.
  lemma BuyOnlySlope(ts: seq<Trade>)
    requires |ts| >= 3 && forall i | 0 <= i < |ts| :: !ts[i].isBuyerMaker && ts[i].qty >= 0.0
    ensures Slope(Deltas(ts)).Some? && Slope(Deltas(ts)).value >= 0.0
    ensures forall q: real :: (forall i | 0 <= i < |ts| :: ts[i].qty == q) ==> Slope(Deltas(ts)) == Some(q)
  {
    var ds := Deltas(ts);
    var hi := LargestOf(ds);
    SlopeBounds(ds, 0.0, hi);
    forall q: real | forall i | 0 <= i < |ts| :: ts[i].qty == q ensures Slope(ds) == Some(q) {
      SlopeBounds(ds, q, q);
    }
  }

  lemma {:induction false} LargestOf(ds: seq<real>) returns (hi: real)
    ensures forall i | 0 <= i < |ds| :: ds[i] <= hi
  {
    hi := 0.0;
    if ds != [] {
      hi := LargestOf(ds[..|ds| - 1]);
      hi := Max(hi, ds[|ds| - 1]);
    }
  }

  lemma DeltaOfTheLast(ts: seq<Trade>, n: nat)
    requires n <= |ts|
    ensures Sum(Deltas(ts)) == Sum(Deltas(ts[..|ts| - n])) + Sum(Deltas(Last(ts, n)))
  {
    var before, after := ts[..|ts| - n], ts[|ts| - n..];
    assert Last(ts, n) == after;
    assert Deltas(ts) == Deltas(before) + Deltas(after);
    SumConcat(Deltas(before), Deltas(after));
  }

  lemma DeltaSinceTheReset(history: seq<Trade>, mark: nat, cvdWindow: nat, window: nat)
    requires window <= cvdWindow && mark + window <= |history|
    ensures Sum(Deltas(Last(Last(history, cvdWindow), window)))
         == Sum(Deltas(history[mark..])) - Sum(Deltas(history[mark..|history| - window]))
  {
    var session := history[mark..];
    LastOfLast(history, window, cvdWindow);
    DeltaOfTheLast(session, window);
    assert Last(session, window) == Last(history, window);
    assert session[..|session| - window] == history[mark..|history| - window];
  }

  // ---- The engine ----

  class FlowEngine {
    const cvdWindow: nat
    const aggressionWindow: nat
    var trades: seq<Trade>
    var cvd: real

    ghost var history: seq<Trade>  // every trade
    ghost var mark: nat            // how many of them came before the last CVD reset

    // The deque holds the last trades; the CVD counts every trade since the reset, evicted or not.
    ghost predicate Valid()
      reads this
    {
      mark <= |history| && trades == Last(history, cvdWindow) && cvd == Sum(Deltas(history[mark..]))
    }

    constructor (cvdWindow: nat, aggressionWindow: nat)
      ensures Valid() && history == [] && mark == 0
      ensures this.cvdWindow == cvdWindow && this.aggressionWindow == aggressionWindow
    {
      this.cvdWindow, this.aggressionWindow := cvdWindow, aggressionWindow;
      trades, cvd := [], 0.0;
      history, mark := [], 0;
    }

    method OnTrade(t: Trade)
      requires Valid()
      modifies this
      ensures Valid() && history == old(history) + [t] && mark == old(mark)
      ensures cvd == old(cvd) + Delta(t)
    {
      PushKeepsTheLast(history, t, cvdWindow);
      SumAppend(Deltas(history[mark..]), Delta(t));
      assert Deltas((history + [t])[mark..]) == Deltas(history[mark..]) + [Delta(t)];
      trades := Push(trades, t, cvdWindow);
      cvd := cvd + Delta(t);
      history := history + [t];
    }

    method ResetCvd()
      requires Valid()
      modifies this
      ensures Valid() && cvd == 0.0 && history == old(history) && mark == |history| && trades == old(trades)
    {
      cvd := 0.0;
      mark := |history|;
    }

    method ComputeDelta(window: nat) returns (delta: real)
      requires Valid() && window >= 1
      ensures delta == Sum(Deltas(Last(trades, window)))
      // As long as the window reaches neither past the deque nor past the reset, it is the change of the CVD.
      ensures window <= cvdWindow && mark + window <= |history| ==>
        delta == cvd - Sum(Deltas(history[mark..|history| - window]))
    {
      delta := Sum(Deltas(Last(trades, window)));
      if window <= cvdWindow && mark + window <= |history| {
        DeltaSinceTheReset(history, mark, cvdWindow, window);
      }
    }

    method ComputeBuySellVolumes(window: nat) returns (buy: real, sell: real)
      requires Valid() && window >= 1
      ensures var recent := Last(trades, window);
        && buy == SideVolume(recent, false) && sell == SideVolume(recent, true)
        && buy - sell == Sum(Deltas(recent))
    {
      var recent := Last(trades, window);
      DeltaIsBuyMinusSell(recent);
      buy, sell := SideVolume(recent, false), SideVolume(recent, true);
    }

    method ComputeAggressionRatio() returns (ratio: Option<real>)
      requires Valid() && aggressionWindow >= 1
      ensures ratio == Aggression(Last(trades, aggressionWindow))
    {
      var recent := Last(trades, aggressionWindow);
      if recent == [] {
        return None;
      }
      var total := TotalQty(recent);
      if total == 0.0 {
        return None;
      }
      ratio := Some(SideVolume(recent, false) / total);
    }

    method CvdSlope(window: nat) returns (slope: Option<real>)
      requires Valid() && window >= 1
      ensures slope == Slope(Deltas(Last(trades, window)))
    {
      var recent := Last(trades, window);
      if |recent| < 3 {
        return None;
      }
      var cumulative: seq<real> := [];
      var running := 0.0;
      for i := 0 to |recent|
        invariant running == Sum(Deltas(recent)[..i])
        invariant cumulative == Cumulative(Deltas(recent)[..i])
      {
        running := running + Delta(recent[i]);
        assert Deltas(recent)[..i + 1][..i] == Deltas(recent)[..i];
        cumulative := cumulative + [running];
      }
      assert Deltas(recent)[..|recent|] == Deltas(recent);
      CumulativeRuns(Deltas(recent));
      var n := |cumulative|;
      var xMean := Centre(n);
      var yMean := Sum(cumulative) / n as real;
      var num := Cross(cumulative, n, xMean, yMean);
      var den := Spread(n, xMean);
      slope := if den != 0.0 then Some(num / den) else None;
    }
  }
}
