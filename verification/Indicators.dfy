// EMA, Wilder RSI, Wilder ATR and VWAP: definitions over the whole bar history, and the
// incremental engine, proved to hold exactly those values after any number of bars.
module Indicators {
  import opened Wrappers
  import opened Sequences

  const EMA_PERIODS: seq<nat> := [9, 21, 50, 200]
  const RSI_PERIOD: nat := 14
  const ATR_PERIOD: nat := 14
  const MAX_HISTORY: nat := 250

  datatype Bar = Bar(high: real, low: real, close: real, volume: real)

  datatype IndicatorValues = IndicatorValues(
    ema9: Option<real>, ema21: Option<real>, ema50: Option<real>, ema200: Option<real>,
    rsi14: Option<real>, vwap: Option<real>, atr14: Option<real>)

  // ---- Definitions over the full history ----

  // The weight of the newest close.
  function Weight(p: nat): (k: real)
    ensures p >= 1 ==> 0.0 < k <= 1.0
  {
    2.0 / (p as real + 1.0)
  }

  function Smooth(x: real, e: real, p: nat): real {
    x * Weight(p) + e * (1.0 - Weight(p))
  }

  function Mean(s: seq<real>, n: nat): real
    requires n >= 1
  {
    Sum(s) / n as real
  }

  // Seeded with the plain mean at bar p, smoothed from then on.
  function Ema(xs: seq<real>, p: nat): real
    requires 1 <= p <= |xs|
  {
    if |xs| == p then Mean(xs, p)
    else Smooth(xs[|xs| - 1], Ema(xs[..|xs| - 1], p), p)
  }

  // The upward (or downward) part of the move from one close to the next.
  function Move(before: real, after: real, up: bool): real {
    if up then Max(0.0, after - before) else Max(0.0, before - after)
  }

  function Moves(xs: seq<real>, up: bool): seq<real> {
    if |xs| < 2 then []
    else Moves(xs[..|xs| - 1], up) + [Move(xs[|xs| - 2], xs[|xs| - 1], up)]
  }

  // Wilder's average of a series: the plain mean of the first fourteen values, smoothed afterwards.
  function Wilder(s: seq<real>): real
    requires |s| >= 14
  {
    if |s| == 14 then Sum(s) / 14.0 else (Wilder(s[..|s| - 1]) * 13.0 + s[|s| - 1]) / 14.0
  }

  function WilderAt(s: seq<real>): Option<real> {
    if |s| >= 14 then Some(Wilder(s)) else None
  }

  function RsiOf(avgGain: real, avgLoss: real): real
    requires avgGain >= 0.0 && avgLoss >= 0.0
  {
    if avgLoss == 0.0 then 100.0 else 100.0 - 100.0 / (1.0 + avgGain / avgLoss)
  }

  function TrueRange(prevClose: Option<real>, b: Bar): real {
    if prevClose.None? then b.high - b.low
    else Max(Max(b.high - b.low, Abs(b.high - prevClose.value)), Abs(b.low - prevClose.value))
  }

  function Closes(bars: seq<Bar>): seq<real> {
    seq(|bars|, i requires 0 <= i < |bars| => bars[i].close)
  }

  function Highs(bars: seq<Bar>): seq<real> {
    seq(|bars|, i requires 0 <= i < |bars| => bars[i].high)
  }

  function Lows(bars: seq<Bar>): seq<real> {
    seq(|bars|, i requires 0 <= i < |bars| => bars[i].low)
  }

  function Volumes(bars: seq<Bar>): seq<real> {
    seq(|bars|, i requires 0 <= i < |bars| => bars[i].volume)
  }

  function LastClose(bars: seq<Bar>): Option<real> {
    if bars == [] then None else Some(bars[|bars| - 1].close)
  }

  function TrueRanges(bars: seq<Bar>): seq<real> {
    if bars == [] then []
    else TrueRanges(bars[..|bars| - 1]) + [TrueRange(LastClose(bars[..|bars| - 1]), bars[|bars| - 1])]
  }

  function Typical(b: Bar): real {
    (b.high + b.low + b.close) / 3.0
  }

  function TradedValue(b: Bar): real {
    Typical(b) * b.volume
  }

  function TradedValues(bars: seq<Bar>): seq<real> {
    seq(|bars|, i requires 0 <= i < |bars| => TradedValue(bars[i]))
  }

  function Turnover(bars: seq<Bar>): real {
    Sum(TradedValues(bars))
  }

  function TotalVolume(bars: seq<Bar>): real {
    Sum(Volumes(bars))
  }

  function EmaAt(bars: seq<Bar>, p: nat): Option<real>
    requires p >= 1
  {
    if |bars| >= p then Some(Ema(Closes(bars), p)) else None
  }

  function Rsi(xs: seq<real>): real
    requires |xs| >= RSI_PERIOD + 1
  {
    MovesShape(xs, true);
    MovesShape(xs, false);
    WilderSign(Moves(xs, true));
    WilderSign(Moves(xs, false));
    RsiOf(Wilder(Moves(xs, true)), Wilder(Moves(xs, false)))
  }

  function RsiAt(bars: seq<Bar>): Option<real> {
    if |bars| >= RSI_PERIOD + 1 then Some(Rsi(Closes(bars))) else None
  }

  function AtrAt(bars: seq<Bar>): Option<real> {
    WilderAt(TrueRanges(bars))
  }

  function VwapAt(session: seq<Bar>): Option<real> {
    if TotalVolume(session) > 0.0 then Some(Turnover(session) / TotalVolume(session)) else None
  }

  // All indicators, from the full history and the bars since the last VWAP reset.
  function Batch(bars: seq<Bar>, session: seq<Bar>): IndicatorValues {
    IndicatorValues(EmaAt(bars, 9), EmaAt(bars, 21), EmaAt(bars, 50), EmaAt(bars, 200),
                    RsiAt(bars), VwapAt(session), AtrAt(bars))
  }

  // ---- The definitions, cleared of denominators ----

  // p times the first value is the sum of the first p closes ...
  lemma EmaSeed(xs: seq<real>, p: nat)
    requires 1 <= p == |xs|
    ensures p as real * Ema(xs, p) == Sum(xs)
  {
    QuotientTimes(Sum(xs), p as real);
  }

  lemma QuotientTimes(x: real, y: real)
    requires y != 0.0
    ensures y * (x / y) == x
  {
  }

  // ... and afterwards the newest close counts twice, the average so far p - 1 times, out of p + 1.
  lemma EmaNext(xs: seq<real>, x: real, p: nat)
    requires 1 <= p <= |xs|
    ensures (p as real + 1.0) * Ema(xs + [x], p) == 2.0 * x + (p as real - 1.0) * Ema(xs, p)
  {
    assert (xs + [x])[..|xs|] == xs;
    SmoothCleared(x, Ema(xs, p), p);
  }

  lemma SmoothCleared(x: real, e: real, p: nat)
    ensures (p as real + 1.0) * Smooth(x, e, p) == 2.0 * x + (p as real - 1.0) * e
  {
    var d, k := p as real + 1.0, Weight(p);
    assert k * d == 2.0;
    assert d * (x * k) == x * (k * d);
    assert d * (e * (1.0 - k)) == e * d - e * (k * d);
  }

  // Fourteen times the first Wilder average is the sum of fourteen values; each further value counts once
  // and the average so far thirteen times.
  lemma WilderDefinition(s: seq<real>)
    requires |s| >= 14
    ensures |s| == 14 ==> 14.0 * Wilder(s) == Sum(s)
    ensures |s| > 14 ==> 14.0 * Wilder(s) == 13.0 * Wilder(s[..|s| - 1]) + s[|s| - 1]
  {
  }

  // Every step between two closes counts as the rise, or the fall, it makes, if it makes one.
  lemma {:induction false} MovesExactly(xs: seq<real>, up: bool, i: nat)
    requires i + 1 < |xs|
    ensures |Moves(xs, up)| == |xs| - 1
    ensures
      var rise := xs[i + 1] - xs[i];
      Moves(xs, up)[i] == if up && rise > 0.0 then rise else if !up && rise < 0.0 then -rise else 0.0
  {
    MovesShape(xs, up);
    if i + 2 < |xs| {
      MovesShape(xs[..|xs| - 1], up);
      MovesExactly(xs[..|xs| - 1], up, i);
    }
  }

  // The true range spans the bar and the close before it.
  lemma TrueRangeExactly(prevClose: Option<real>, b: Bar)
    requires b.low <= b.high
    ensures prevClose.None? ==> TrueRange(prevClose, b) == b.high - b.low
    ensures prevClose.Some? ==>
      var p := prevClose.value;
      TrueRange(prevClose, b) == (if p > b.high then p else b.high) - (if p < b.low then p else b.low)
  {
  }

  // A high below its low can only come from bad data: the largest of the three distances still counts.
  lemma TrueRangeIsTheLargest(p: real, b: Bar)
    ensures
      var tr := TrueRange(Some(p), b);
      && tr >= b.high - b.low && tr >= b.high - p && tr >= p - b.high && tr >= b.low - p && tr >= p - b.low
      && tr in {b.high - b.low, b.high - p, p - b.high, b.low - p, p - b.low}
  {
  }

  lemma {:induction false} TrueRangesExactly(bars: seq<Bar>, i: nat)
    requires i < |bars|
    ensures |TrueRanges(bars)| == |bars|
    ensures TrueRanges(bars)[i] == TrueRange(if i == 0 then None else Some(bars[i - 1].close), bars[i])
  {
    var init := bars[..|bars| - 1];
    if i < |init| {
      TrueRangesExactly(init, i);
    } else if init != [] {
      TrueRangesExactly(init, 0);
    }
  }

  // RSI is the share of the gains in gains plus losses, in percent.
  lemma RsiIsAShare(g: real, l: real)
    requires g >= 0.0 && l >= 0.0 && g + l > 0.0
    ensures RsiOf(g, l) * (g + l) == 100.0 * g
  {
    if l > 0.0 {
      var r := g / l;
      QuotientSign(g, l);
      assert r * l == g;
      var q := 100.0 / (1.0 + r);
      assert q * (1.0 + r) == 100.0;
      assert q * (g + l) == (q * (1.0 + r)) * l;
    }
  }

  lemma VwapIsTheMean(session: seq<Bar>)
    ensures VwapAt(session).Some? <==> TotalVolume(session) > 0.0
    ensures VwapAt(session).Some? ==> VwapAt(session).value * TotalVolume(session) == Turnover(session)
  {
    if TotalVolume(session) > 0.0 { QuotientTimes(Turnover(session), TotalVolume(session)); }
  }

  // VWAP weighs a third of high plus low plus close with the volume.
  lemma VwapDefinition(session: seq<Bar>, b: Bar)
    ensures Turnover([]) == 0.0 && TotalVolume([]) == 0.0
    ensures 3.0 * (Turnover(session + [b]) - Turnover(session)) == (b.high + b.low + b.close) * b.volume
    ensures TotalVolume(session + [b]) == TotalVolume(session) + b.volume
  {
    VwapSumsStep(session, b);
    assert 3.0 * TradedValue(b) == (b.high + b.low + b.close) * b.volume;
  }

  // ---- Ranges over all histories ----

  lemma {:induction false} EmaStaysWithinCloses(xs: seq<real>, p: nat, lo: real, hi: real)
    requires 1 <= p <= |xs| && forall i | 0 <= i < |xs| :: lo <= xs[i] <= hi
    ensures lo <= Ema(xs, p) <= hi
  {
    if |xs| == p {
      SumBounds(xs, lo, hi);
      QuotientBounds(Sum(xs), p as real, lo, hi);
    } else {
      var init := xs[..|xs| - 1];
      EmaStaysWithinCloses(init, p, lo, hi);
      SmoothBounds(xs[|xs| - 1], Ema(init, p), p, lo, hi);
    }
  }

  lemma SmoothBounds(x: real, e: real, p: nat, lo: real, hi: real)
    requires p >= 1 && lo <= x <= hi && lo <= e <= hi
    ensures lo <= Smooth(x, e, p) <= hi
  {
    var k := Weight(p);
    ProductSign(x - lo, k);
    ProductSign(e - lo, 1.0 - k);
    ProductSign(hi - x, k);
    ProductSign(hi - e, 1.0 - k);
    assert Smooth(x, e, p) - lo == (x - lo) * k + (e - lo) * (1.0 - k);
    assert hi - Smooth(x, e, p) == (hi - x) * k + (hi - e) * (1.0 - k);
  }

  ghost predicate NonNegative(s: seq<real>) {
    forall i | 0 <= i < |s| :: s[i] >= 0.0
  }

  ghost predicate AllZero(s: seq<real>) {
    forall i | 0 <= i < |s| :: s[i] == 0.0
  }

  lemma {:induction false} SumSign(s: seq<real>)
    requires NonNegative(s)
    ensures Sum(s) >= 0.0
    ensures Sum(s) == 0.0 <==> AllZero(s)
  {
    if s != [] {
      var init := s[..|s| - 1];
      SumSign(init);
      assert forall i | 0 <= i < |init| :: init[i] == s[i];
    }
  }

  // A Wilder average of non-negative values is zero exactly while all of them were.
  lemma {:induction false} WilderSign(s: seq<real>)
    requires |s| >= 14 && NonNegative(s)
    ensures Wilder(s) >= 0.0
    ensures Wilder(s) == 0.0 <==> AllZero(s)
  {
    if |s| == 14 {
      SumSign(s);
    } else {
      var init := s[..|s| - 1];
      WilderSign(init);
      assert forall i | 0 <= i < |init| :: init[i] == s[i];
    }
  }

  lemma {:induction false} MovesShape(xs: seq<real>, up: bool)
    ensures |Moves(xs, up)| == if |xs| < 2 then 0 else |xs| - 1
    ensures NonNegative(Moves(xs, up))
  {
    if |xs| >= 2 { MovesShape(xs[..|xs| - 1], up); }
  }

  predicate FallsAt(xs: seq<real>, i: int)
    requires 0 <= i < |xs| - 1
  {
    xs[i] > xs[i + 1]
  }

  predicate RisesAt(xs: seq<real>, i: int)
    requires 0 <= i < |xs| - 1
  {
    xs[i] < xs[i + 1]
  }

  lemma {:induction false} NoMovesOfAKind(xs: seq<real>)
    ensures AllZero(Moves(xs, false)) <==> forall i | 0 <= i < |xs| - 1 :: !FallsAt(xs, i)
    ensures AllZero(Moves(xs, true)) <==> forall i | 0 <= i < |xs| - 1 :: !RisesAt(xs, i)
  {
    if |xs| >= 2 {
      var init, n := xs[..|xs| - 1], |xs| - 2;
      NoMovesOfAKind(init);
      assert forall i | 0 <= i < n :: FallsAt(init, i) == FallsAt(xs, i) && RisesAt(init, i) == RisesAt(xs, i);
      AllZeroAppend(Moves(init, false), Move(xs[n], xs[n + 1], false));
      AllZeroAppend(Moves(init, true), Move(xs[n], xs[n + 1], true));
      assert FallsAt(xs, n) || RisesAt(xs, n) || (!FallsAt(xs, n) && !RisesAt(xs, n));
    }
  }

  lemma AllZeroAppend(s: seq<real>, x: real)
    ensures AllZero(s + [x]) <==> AllZero(s) && x == 0.0
  {
    var t := s + [x];
    assert t[|s|] == x && forall i | 0 <= i < |s| :: t[i] == s[i];
  }

  // RSI lies in [0, 100]; it is 100 exactly when no close ever fell, and 0 exactly when some close
  // fell and none ever rose.
  lemma RsiRange(xs: seq<real>)
    requires |xs| >= RSI_PERIOD + 1
    ensures 0.0 <= Rsi(xs) <= 100.0
    ensures Rsi(xs) == 100.0 <==> forall i | 0 <= i < |xs| - 1 :: !FallsAt(xs, i)
    ensures Rsi(xs) == 0.0 <==>
      (exists i | 0 <= i < |xs| - 1 :: FallsAt(xs, i)) && (forall i | 0 <= i < |xs| - 1 :: !RisesAt(xs, i))
  {
    MovesShape(xs, true);
    MovesShape(xs, false);
    WilderSign(Moves(xs, true));
    WilderSign(Moves(xs, false));
    NoMovesOfAKind(xs);
    RsiFormula(Wilder(Moves(xs, true)), Wilder(Moves(xs, false)));
  }

  lemma RsiFormula(g: real, l: real)
    requires g >= 0.0 && l >= 0.0
    ensures 0.0 <= RsiOf(g, l) <= 100.0
    ensures RsiOf(g, l) == 100.0 <==> l == 0.0
    ensures RsiOf(g, l) == 0.0 <==> l > 0.0 && g == 0.0
  {
    if l > 0.0 {
      QuotientSign(g, l);
      var d := 1.0 + g / l;
      QuotientBounds(100.0, d, 0.0, 100.0);
      QuotientSign(100.0, d);
      assert (100.0 / d) * d == 100.0;
    }
  }

  lemma {:induction false} TrueRangesNonNegative(bars: seq<Bar>)
    requires forall i | 0 <= i < |bars| :: bars[i].high >= bars[i].low
    ensures |TrueRanges(bars)| == |bars| && NonNegative(TrueRanges(bars))
  {
    if bars != [] { TrueRangesNonNegative(bars[..|bars| - 1]); }
  }

  lemma AtrIsNonNegative(bars: seq<Bar>)
    requires forall i | 0 <= i < |bars| :: bars[i].high >= bars[i].low
    ensures AtrAt(bars).Some? <==> |bars| >= ATR_PERIOD
    ensures AtrAt(bars).Some? ==> AtrAt(bars).value >= 0.0
  {
    TrueRangesNonNegative(bars);
    if |bars| >= ATR_PERIOD { WilderSign(TrueRanges(bars)); }
  }

  predicate InRange(b: Bar, lo: real, hi: real) {
    lo <= b.low <= b.close <= b.high <= hi && b.volume >= 0.0
  }

  lemma TradedValueBounds(b: Bar, lo: real, hi: real)
    requires InRange(b, lo, hi)
    ensures WithinWeight(TradedValue(b), b.volume, lo, hi)
  {
    ProductSign(Typical(b) - lo, b.volume);
    ProductSign(hi - Typical(b), b.volume);
  }

  // VWAP lies between the lowest low and the highest high since the reset, and is absent exactly
  // when nothing was traded.
  lemma VwapStaysWithinTheRange(session: seq<Bar>, lo: real, hi: real)
    requires forall i | 0 <= i < |session| :: InRange(session[i], lo, hi)
    ensures VwapAt(session).Some? ==> lo <= VwapAt(session).value <= hi
    ensures VwapAt(session).None? <==> forall i | 0 <= i < |session| :: session[i].volume == 0.0
  {
    var xs, ws := TradedValues(session), Volumes(session);
    forall i | 0 <= i < |session| ensures WithinWeight(xs[i], ws[i], lo, hi) {
      assert InRange(session[i], lo, hi);
      TradedValueBounds(session[i], lo, hi);
    }
    WeightedSumBounds(xs, ws, lo, hi);
    if Sum(ws) > 0.0 { RatioBounds(Sum(xs), Sum(ws), lo, hi); }
    VolumesAbsent(session);
  }

  lemma VolumesAbsent(session: seq<Bar>)
    requires forall i | 0 <= i < |session| :: session[i].volume >= 0.0
    ensures TotalVolume(session) >= 0.0
    ensures TotalVolume(session) == 0.0 <==> forall i | 0 <= i < |session| :: session[i].volume == 0.0
  {
    var ws := Volumes(session);
    SumSign(ws);
    assert forall i | 0 <= i < |session| :: ws[i] == session[i].volume;
  }

  // ---- The incremental state ----

  datatype EngineState = EngineState(
    closes: seq<real>, highs: seq<real>, lows: seq<real>, volumes: seq<real>,
    ema: map<nat, Option<real>>, rsiAvgGain: Option<real>, rsiAvgLoss: Option<real>,
    trBuffer: seq<real>, atr: Option<real>, prevClose: Option<real>, vwapNum: real, vwapDen: real)

  const INITIAL: EngineState := EngineState([], [], [], [], map[9 := None, 21 := None, 50 := None, 200 := None],
                                            None, None, [], None, None, 0.0, 0.0)

  function NextEma(e: Option<real>, kept: seq<real>, close: real, p: nat): Option<real>
    requires p >= 1
  {
    if e.Some? then Some(Smooth(close, e.value, p))
    else if |kept| >= p then Some(Mean(Last(kept, p), p))
    else None
  }

  function NextEmas(ema: map<nat, Option<real>>, kept: seq<real>, close: real): map<nat, Option<real>> {
    map p | p in ema :: if p >= 1 then NextEma(ema[p], kept, close, p) else ema[p]
  }

  // The averages of the first i periods are updated, the others are not.
  ghost predicate EmasUpTo(i: nat, ema: map<nat, Option<real>>, before: map<nat, Option<real>>, kept: seq<real>,
      close: real) {
    && ema.Keys == before.Keys == {9, 21, 50, 200}
    && ema[9] == (if i > 0 then NextEma(before[9], kept, close, 9) else before[9])
    && ema[21] == (if i > 1 then NextEma(before[21], kept, close, 21) else before[21])
    && ema[50] == (if i > 2 then NextEma(before[50], kept, close, 50) else before[50])
    && ema[200] == (if i > 3 then NextEma(before[200], kept, close, 200) else before[200])
  }

  function NextAvgMove(avg: Option<real>, kept: seq<real>, prevClose: Option<real>, close: real,
      up: bool): Option<real> {
    if prevClose.None? then avg
    else if avg.Some? then Some((avg.value * 13.0 + Move(prevClose.value, close, up)) / 14.0)
    else if |kept| == RSI_PERIOD + 1 then Some(Sum(Moves(kept, up)) / 14.0)
    else None
  }

  function NextAtr(atr: Option<real>, buffer: seq<real>, tr: real): Option<real> {
    if atr.Some? then Some((atr.value * 13.0 + tr) / 14.0)
    else if |buffer| >= ATR_PERIOD then Some(Sum(Last(buffer, ATR_PERIOD)) / 14.0)
    else None
  }

  function AppendColumns(s: EngineState, b: Bar): EngineState {
    s.(closes := Push(s.closes, b.close, MAX_HISTORY), highs := Push(s.highs, b.high, MAX_HISTORY),
       lows := Push(s.lows, b.low, MAX_HISTORY), volumes := Push(s.volumes, b.volume, MAX_HISTORY))
  }

  function StepEmas(s: EngineState, b: Bar): EngineState {
    s.(ema := NextEmas(s.ema, s.closes, b.close))
  }

  function StepRsi(s: EngineState, b: Bar): EngineState {
    s.(rsiAvgGain := NextAvgMove(s.rsiAvgGain, s.closes, s.prevClose, b.close, true),
       rsiAvgLoss := NextAvgMove(s.rsiAvgLoss, s.closes, s.prevClose, b.close, false))
  }

  function StepAtr(s: EngineState, b: Bar): EngineState {
    var buffer := Push(s.trBuffer, TrueRange(s.prevClose, b), ATR_PERIOD + 5);
    s.(trBuffer := buffer, atr := NextAtr(s.atr, buffer, TrueRange(s.prevClose, b)))
  }

  function StepVwap(s: EngineState, b: Bar): EngineState {
    s.(vwapNum := s.vwapNum + TradedValue(b), vwapDen := s.vwapDen + b.volume)
  }

  // One closed bar: the columns first, then every indicator, then the close the next bar moves from.
  function NextState(s: EngineState, b: Bar): EngineState {
    StepVwap(StepAtr(StepRsi(StepEmas(AppendColumns(s, b), b), b), b), b).(prevClose := Some(b.close))
  }

  function Read(s: EngineState): IndicatorValues {
    IndicatorValues(
      Lookup(s.ema, 9), Lookup(s.ema, 21), Lookup(s.ema, 50), Lookup(s.ema, 200),
      if s.rsiAvgGain.None? || s.rsiAvgLoss.None? then None
      else if s.rsiAvgLoss.value == 0.0 then Some(100.0)
      else
        var d := 1.0 + s.rsiAvgGain.value / s.rsiAvgLoss.value;
        if d == 0.0 then None else Some(100.0 - 100.0 / d),
      if s.vwapDen > 0.0 then Some(s.vwapNum / s.vwapDen) else None,
      s.atr)
  }

  function Lookup(ema: map<nat, Option<real>>, p: nat): Option<real> {
    if p in ema then ema[p] else None
  }

  // What happens to an engine: a closed bar, or the daily VWAP reset.
  datatype Op = Kline(bar: Bar) | Reset

  function Run(ops: seq<Op>): EngineState {
    if ops == [] then INITIAL
    else
      var s := Run(ops[..|ops| - 1]);
      match ops[|ops| - 1]
      case Kline(b) => NextState(s, b)
      case Reset => s.(vwapNum := 0.0, vwapDen := 0.0)
  }

  function Bars(ops: seq<Op>): seq<Bar> {
    if ops == [] then []
    else match ops[|ops| - 1]
      case Kline(b) => Bars(ops[..|ops| - 1]) + [b]
      case Reset => Bars(ops[..|ops| - 1])
  }

  function Session(ops: seq<Op>): seq<Bar> {
    if ops == [] then []
    else match ops[|ops| - 1]
      case Kline(b) => Session(ops[..|ops| - 1]) + [b]
      case Reset => []
  }

  // ---- Incremental equals batch ----

  lemma ColumnsAppend(bars: seq<Bar>, b: Bar)
    ensures Closes(bars + [b]) == Closes(bars) + [b.close] && Highs(bars + [b]) == Highs(bars) + [b.high]
    ensures Lows(bars + [b]) == Lows(bars) + [b.low] && Volumes(bars + [b]) == Volumes(bars) + [b.volume]
  {
  }

  lemma {:induction false} DequesHoldTheLastBars(ops: seq<Op>)
    ensures var s, bars := Run(ops), Bars(ops);
      && s.closes == Last(Closes(bars), 250) && s.highs == Last(Highs(bars), 250)
      && s.lows == Last(Lows(bars), 250) && s.volumes == Last(Volumes(bars), 250)
      && s.prevClose == LastClose(bars)
  {
    if ops != [] {
      DequesHoldTheLastBars(ops[..|ops| - 1]);
      if ops[|ops| - 1].Kline? {
        var bars, b := Bars(ops[..|ops| - 1]), ops[|ops| - 1].bar;
        ColumnsAppend(bars, b);
        PushKeepsTheLast(Closes(bars), b.close, MAX_HISTORY);
        PushKeepsTheLast(Highs(bars), b.high, MAX_HISTORY);
        PushKeepsTheLast(Lows(bars), b.low, MAX_HISTORY);
        PushKeepsTheLast(Volumes(bars), b.volume, MAX_HISTORY);
      }
    }
  }

  // One more bar seeds the average at bar p exactly, and smooths it afterwards.
  lemma EmaStep(bars: seq<Bar>, b: Bar, p: nat)
    requires 1 <= p <= MAX_HISTORY
    ensures EmaAt(bars + [b], p) == NextEma(EmaAt(bars, p), Last(Closes(bars + [b]), MAX_HISTORY), b.close, p)
  {
    ColumnsAppend(bars, b);
    assert Closes(bars + [b])[..|bars|] == Closes(bars);
    LastOfLast(Closes(bars + [b]), p, MAX_HISTORY);
  }

  lemma {:induction false} EmaEqualsBatch(ops: seq<Op>, p: nat)
    requires p in EMA_PERIODS
    ensures p in Run(ops).ema && Run(ops).ema[p] == EmaAt(Bars(ops), p)
  {
    if ops != [] {
      EmaEqualsBatch(ops[..|ops| - 1], p);
      DequesHoldTheLastBars(ops);
      if ops[|ops| - 1].Kline? { EmaStep(Bars(ops[..|ops| - 1]), ops[|ops| - 1].bar, p); }
    }
  }

  lemma WilderStep(s: seq<real>, x: real)
    ensures WilderAt(s + [x]) ==
      if WilderAt(s).Some? then Some((WilderAt(s).value * 13.0 + x) / 14.0)
      else if |s| + 1 == 14 then Some(Sum(s + [x]) / 14.0)
      else None
  {
    assert (s + [x])[..|s|] == s;
  }

  lemma MovesAppend(xs: seq<real>, x: real, up: bool)
    requires xs != []
    ensures Moves(xs + [x], up) == Moves(xs, up) + [Move(xs[|xs| - 1], x, up)]
  {
    assert (xs + [x])[..|xs|] == xs;
  }

  // The averages are seeded at bar fifteen exactly: from then on the window may be full, but the
  // recursion no longer looks at it.
  lemma AvgMoveStep(bars: seq<Bar>, b: Bar, up: bool)
    ensures WilderAt(Moves(Closes(bars + [b]), up))
         == NextAvgMove(WilderAt(Moves(Closes(bars), up)), Last(Closes(bars + [b]), MAX_HISTORY), LastClose(bars),
           b.close, up)
  {
    ColumnsAppend(bars, b);
    MovesShape(Closes(bars), up);
    MovesShape(Closes(bars + [b]), up);
    if bars != [] {
      MovesAppend(Closes(bars), b.close, up);
      WilderStep(Moves(Closes(bars), up), Move(LastClose(bars).value, b.close, up));
    }
  }

  lemma {:induction false} RsiAveragesEqualBatch(ops: seq<Op>)
    ensures Run(ops).rsiAvgGain == WilderAt(Moves(Closes(Bars(ops)), true))
    ensures Run(ops).rsiAvgLoss == WilderAt(Moves(Closes(Bars(ops)), false))
  {
    if ops != [] {
      var init, last := ops[..|ops| - 1], ops[|ops| - 1];
      RsiAveragesEqualBatch(init);
      DequesHoldTheLastBars(init);
      DequesHoldTheLastBars(ops);
      if last.Kline? {
        AvgMoveStep(Bars(init), last.bar, true);
        AvgMoveStep(Bars(init), last.bar, false);
      }
    }
  }

  lemma TrueRangesAppend(bars: seq<Bar>, b: Bar)
    ensures TrueRanges(bars + [b]) == TrueRanges(bars) + [TrueRange(LastClose(bars), b)]
  {
    assert (bars + [b])[..|bars|] == bars;
  }

  lemma {:induction false} AtrEqualsBatch(ops: seq<Op>)
    ensures Run(ops).trBuffer == Last(TrueRanges(Bars(ops)), 19)
    ensures Run(ops).atr == AtrAt(Bars(ops))
  {
    if ops != [] {
      var init, last := ops[..|ops| - 1], ops[|ops| - 1];
      AtrEqualsBatch(init);
      DequesHoldTheLastBars(init);
      if last.Kline? {
        var trs, tr := TrueRanges(Bars(init)), TrueRange(LastClose(Bars(init)), last.bar);
        TrueRangesAppend(Bars(init), last.bar);
        PushKeepsTheLast(trs, tr, ATR_PERIOD + 5);
        AtrStep(trs, tr);
      }
    }
  }

  lemma AtrStep(trs: seq<real>, tr: real)
    ensures WilderAt(trs + [tr]) == NextAtr(WilderAt(trs), Last(trs + [tr], ATR_PERIOD + 5), tr)
  {
    WilderStep(trs, tr);
    LastOfLast(trs + [tr], ATR_PERIOD, ATR_PERIOD + 5);
  }

  lemma {:induction false} VwapEqualsBatch(ops: seq<Op>)
    ensures Run(ops).vwapNum == Turnover(Session(ops)) && Run(ops).vwapDen == TotalVolume(Session(ops))
  {
    if ops != [] {
      VwapEqualsBatch(ops[..|ops| - 1]);
      if ops[|ops| - 1].Kline? { VwapSumsStep(Session(ops[..|ops| - 1]), ops[|ops| - 1].bar); }
    }
  }

  lemma VwapSumsStep(session: seq<Bar>, b: Bar)
    ensures Turnover(session + [b]) == Turnover(session) + TradedValue(b)
    ensures TotalVolume(session + [b]) == TotalVolume(session) + b.volume
  {
    assert TradedValues(session + [b]) == TradedValues(session) + [TradedValue(b)];
    ColumnsAppend(session, b);
    SumAppend(TradedValues(session), TradedValue(b));
    SumAppend(Volumes(session), b.volume);
  }

  lemma RsiEqualsBatch(ops: seq<Op>)
    ensures Read(Run(ops)).rsi14 == RsiAt(Bars(ops))
  {
    var xs := Closes(Bars(ops));
    RsiAveragesEqualBatch(ops);
    MovesShape(xs, true);
    MovesShape(xs, false);
    if |xs| >= RSI_PERIOD + 1 {
      WilderSign(Moves(xs, true));
      WilderSign(Moves(xs, false));
      ReadRsi(Run(ops), Wilder(Moves(xs, true)), Wilder(Moves(xs, false)));
    }
  }

  lemma ReadRsi(s: EngineState, g: real, l: real)
    requires g >= 0.0 && l >= 0.0 && s.rsiAvgGain == Some(g) && s.rsiAvgLoss == Some(l)
    ensures Read(s).rsi14 == Some(RsiOf(g, l))
  {
    if l > 0.0 { QuotientSign(g, l); }
  }

  lemma EmasEqualBatch(ops: seq<Op>)
    ensures var v, bars := Read(Run(ops)), Bars(ops);
      v.ema9 == EmaAt(bars, 9) && v.ema21 == EmaAt(bars, 21) && v.ema50 == EmaAt(bars, 50)
        && v.ema200 == EmaAt(bars, 200)
  {
    assert EMA_PERIODS[0] == 9 && EMA_PERIODS[1] == 21 && EMA_PERIODS[2] == 50 && EMA_PERIODS[3] == 200;
    EmaEqualsBatch(ops, 9);
    EmaEqualsBatch(ops, 21);
    EmaEqualsBatch(ops, 50);
    EmaEqualsBatch(ops, 200);
  }

  // After any sequence of bars and resets, what the engine reports is what the definitions over the
  // full history say, although it keeps at most 250 bars.
  lemma IncrementalEqualsBatch(ops: seq<Op>)
    ensures Read(Run(ops)) == Batch(Bars(ops), Session(ops))
  {
    EmasEqualBatch(ops);
    RsiEqualsBatch(ops);
    AtrEqualsBatch(ops);
    VwapEqualsBatch(ops);
  }

  // The report field by field, and from which bar on each of them is there.
  lemma ReportedAverages(ops: seq<Op>)
    ensures
      var v, bars, xs := Read(Run(ops)), Bars(ops), Closes(Bars(ops));
      && v.ema9 == (if |bars| < 9 then None else Some(Ema(xs, 9)))
      && v.ema21 == (if |bars| < 21 then None else Some(Ema(xs, 21)))
      && v.ema50 == (if |bars| < 50 then None else Some(Ema(xs, 50)))
      && v.ema200 == (if |bars| < 200 then None else Some(Ema(xs, 200)))
  {
    EmasEqualBatch(ops);
  }

  lemma ReportedAtr(ops: seq<Op>)
    ensures |TrueRanges(Bars(ops))| == |Bars(ops)|
    ensures Read(Run(ops)).atr14 == if |Bars(ops)| < 14 then None else Some(Wilder(TrueRanges(Bars(ops))))
  {
    AtrEqualsBatch(ops);
    if Bars(ops) != [] { TrueRangesExactly(Bars(ops), 0); }
  }

  lemma ReportedVwap(ops: seq<Op>)
    ensures Read(Run(ops)).vwap == VwapAt(Session(ops))
  {
    IncrementalEqualsBatch(ops);
  }

  // The average gain over the average gain plus the average loss, in percent; 100 if nothing moved.
  lemma ReportedRsi(ops: seq<Op>)
    ensures Read(Run(ops)).rsi14.Some? <==> |Bars(ops)| >= 15
    ensures |Bars(ops)| >= 15 ==>
      var gains, losses := Moves(Closes(Bars(ops)), true), Moves(Closes(Bars(ops)), false);
      && |gains| == |losses| == |Bars(ops)| - 1
      && IsShare(Read(Run(ops)).rsi14, Wilder(gains), Wilder(losses))
  {
    var xs := Closes(Bars(ops));
    RsiEqualsBatch(ops);
    MovesShape(xs, true);
    MovesShape(xs, false);
    if |Bars(ops)| >= 15 {
      WilderSign(Moves(xs, true));
      WilderSign(Moves(xs, false));
      SharesAreShares(Wilder(Moves(xs, true)), Wilder(Moves(xs, false)));
    }
  }

  predicate IsShare(rsi: Option<real>, g: real, l: real) {
    && rsi.Some?
    && (g + l == 0.0 ==> rsi.value == 100.0)
    && (g + l != 0.0 ==> rsi.value * (g + l) == 100.0 * g)
  }

  lemma SharesAreShares(g: real, l: real)
    requires g >= 0.0 && l >= 0.0
    ensures IsShare(Some(RsiOf(g, l)), g, l)
  {
    if g + l > 0.0 { RsiIsAShare(g, l); }
  }

  // ---- The engine ----

  class IndicatorEngine {
    var closes: seq<real>
    var highs: seq<real>
    var lows: seq<real>
    var volumes: seq<real>
    var ema: map<nat, Option<real>>
    var rsiAvgGain: Option<real>
    var rsiAvgLoss: Option<real>
    var trBuffer: seq<real>
    var atr: Option<real>
    var prevClose: Option<real>
    var vwapNum: real
    var vwapDen: real

    function Contents(): EngineState
      reads this
    {
      EngineState(closes, highs, lows, volumes, ema, rsiAvgGain, rsiAvgLoss, trBuffer, atr, prevClose, vwapNum, vwapDen)
    }

    // The four periods are tracked, and the RSI averages are seeded together and never negative.
    ghost predicate Valid()
      reads this
    {
      && ema.Keys == {9, 21, 50, 200}
      && (rsiAvgGain.Some? <==> rsiAvgLoss.Some?)
      && (rsiAvgGain.Some? ==> rsiAvgGain.value >= 0.0 && rsiAvgLoss.value >= 0.0)
    }

    constructor ()
      ensures Valid() && Contents() == Run([])
    {
      closes, highs, lows, volumes := [], [], [], [];
      ema := map[9 := None, 21 := None, 50 := None, 200 := None];
      rsiAvgGain, rsiAvgLoss, trBuffer, atr, prevClose := None, None, [], None, None;
      vwapNum, vwapDen := 0.0, 0.0;
    }

    method OnKlineClose(b: Bar)
      requires Valid()
      modifies this
      ensures Valid() && Contents() == NextState(old(Contents()), b)
    {
      AppendBar(b);
      UpdateEmas(b);
      UpdateRsi(b);
      UpdateAtr(b);
      UpdateVwap(b);
      prevClose := Some(b.close);
    }

    method AppendBar(b: Bar)
      requires Valid()
      modifies `closes, `highs, `lows, `volumes
      ensures Valid() && Contents() == AppendColumns(old(Contents()), b)
    {
      closes := Push(closes, b.close, MAX_HISTORY);
      highs := Push(highs, b.high, MAX_HISTORY);
      lows := Push(lows, b.low, MAX_HISTORY);
      volumes := Push(volumes, b.volume, MAX_HISTORY);
    }

    method ResetVwap()
      requires Valid()
      modifies `vwapNum, `vwapDen
      ensures Contents() == old(Contents()).(vwapNum := 0.0, vwapDen := 0.0)
    {
      vwapNum, vwapDen := 0.0, 0.0;
    }

    method Compute() returns (vals: IndicatorValues)
      requires Valid()
      ensures vals == Read(Contents())
    {
      vals := IndicatorValues(ema[9], ema[21], ema[50], ema[200], None, None, None);
      if rsiAvgGain.Some? && rsiAvgLoss.Some? {
        if rsiAvgLoss.value == 0.0 {
          vals := vals.(rsi14 := Some(100.0));
        } else {
          var rs := rsiAvgGain.value / rsiAvgLoss.value;
          QuotientSign(rsiAvgGain.value, rsiAvgLoss.value);
          vals := vals.(rsi14 := Some(100.0 - 100.0 / (1.0 + rs)));
        }
      }
      if vwapDen > 0.0 {
        vals := vals.(vwap := Some(vwapNum / vwapDen));
      }
      vals := vals.(atr14 := atr);
    }

    method UpdateEmas(b: Bar)
      requires Valid()
      modifies `ema
      ensures Valid() && Contents() == StepEmas(old(Contents()), b)
    {
      for i := 0 to |EMA_PERIODS|
        invariant EmasUpTo(i, ema, old(ema), closes, b.close)
      {
        var period := EMA_PERIODS[i];
        assert period == if i == 0 then 9 else if i == 1 then 21 else if i == 2 then 50 else 200;
        if ema[period].None? {
          if |closes| >= period {
            var seed := Last(closes, period);
            ema := ema[period := Some(Mean(seed, period))];
          }
        } else {
          ema := ema[period := Some(Smooth(b.close, ema[period].value, period))];
        }
      }
      assert ema == NextEmas(old(ema), closes, b.close);
    }

    method UpdateRsi(b: Bar)
      requires Valid()
      modifies `rsiAvgGain, `rsiAvgLoss
      ensures Valid() && Contents() == StepRsi(old(Contents()), b)
    {
      if prevClose.None? {
        return;
      }
      var change := b.close - prevClose.value;
      var gain := Max(0.0, change);
      var loss := Max(0.0, -change);
      if rsiAvgGain.None? {
        if |closes| == RSI_PERIOD + 1 {
          var gains := Moves(closes, true);
          var losses := Moves(closes, false);
          MovesShape(closes, true);
          MovesShape(closes, false);
          SumSign(gains);
          SumSign(losses);
          rsiAvgGain := Some(Sum(gains) / 14.0);
          rsiAvgLoss := Some(Sum(losses) / 14.0);
        }
      } else {
        rsiAvgGain := Some((rsiAvgGain.value * 13.0 + gain) / 14.0);
        rsiAvgLoss := Some((rsiAvgLoss.value * 13.0 + loss) / 14.0);
      }
    }

    method UpdateAtr(b: Bar)
      requires Valid()
      modifies `trBuffer, `atr
      ensures Valid() && Contents() == StepAtr(old(Contents()), b)
    {
      var tr := TrueRange(prevClose, b);
      trBuffer := Push(trBuffer, tr, ATR_PERIOD + 5);
      if atr.None? {
        if |trBuffer| >= ATR_PERIOD {
          atr := Some(Sum(Last(trBuffer, ATR_PERIOD)) / 14.0);
        }
      } else {
        atr := Some((atr.value * 13.0 + tr) / 14.0);
      }
    }

    method UpdateVwap(b: Bar)
      requires Valid()
      modifies `vwapNum, `vwapDen
      ensures Valid() && Contents() == StepVwap(old(Contents()), b)
    {
      vwapNum := vwapNum + TradedValue(b);
      vwapDen := vwapDen + b.volume;
    }
  }
}
