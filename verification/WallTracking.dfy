// Wall detection: which book levels count as walls, how long each has stood, and when a vanished
// wall raises the spoofing alert.
module WallTracking {
  import opened Wrappers
  import opened Sequences
  import opened OrderedDict

  datatype Side = Bid | Ask

  datatype Config = Config(minNotional: real, threshold: real, depth: nat, spoofAgeS: real)

  // A book level: its texts, and the quantity they denote.
  datatype Level = Level(price: string, qtyText: string, qty: real)

  type Key = (Side, string)

  datatype WallInfo = WallInfo(
    price: string, qty: string, side: Side, firstSeenMs: int, lastSeenMs: int,
    isSpoofingCandidate: bool, disappearCount: nat)

  type Known = seq<(Key, WallInfo)>

  datatype Input = Input(bids: seq<Level>, asks: seq<Level>, price: real, nowMs: int)

  datatype WallsResult = WallsResult(bidWalls: seq<WallInfo>, askWalls: seq<WallInfo>, spoofingAlert: bool)

  // ---- Which levels are walls ----

  function PositiveQtys(levels: seq<Level>): seq<real> {
    if levels == [] then []
    else
      var q := levels[|levels| - 1].qty;
      PositiveQtys(levels[..|levels| - 1]) + (if q > 0.0 then [q] else [])
  }

  function AvgQty(levels: seq<Level>): real {
    if PositiveQtys(levels) == [] then 0.0 else Sum(PositiveQtys(levels)) / |PositiveQtys(levels)| as real
  }

  // A level of the sampled ones whose notional and relative size are both large enough.
  predicate IsWall(cfg: Config, levels: seq<Level>, price: real, l: Level) {
    l.qty > 0.0 && l.qty * price >= cfg.minNotional && AvgQty(levels) != 0.0 && l.qty >= AvgQty(levels) * cfg.threshold
  }

  function Sampled(cfg: Config, levels: seq<Level>): seq<Level> {
    if |levels| <= cfg.depth then levels else levels[..cfg.depth]
  }

  function SideLevels(cfg: Config, input: Input, side: Side): seq<Level> {
    Sampled(cfg, if side.Bid? then input.bids else input.asks)
  }

  // The level of this key is a wall in this update.
  predicate Qualifies(cfg: Config, input: Input, k: Key) {
    var levels := SideLevels(cfg, input, k.0);
    exists i | 0 <= i < |levels| :: levels[i].price == k.1 && IsWall(cfg, levels, input.price, levels[i])
  }

  // ---- One scan ----

  datatype Scan = Scan(walls: seq<WallInfo>, known: Known, active: set<Key>)

  function Seen(known: Known, side: Side, l: Level, nowMs: int): WallInfo {
    var entry := Get(known, (side, l.price));
    if entry.Some? then entry.value.(lastSeenMs := nowMs, qty := l.qtyText)
    else WallInfo(l.price, l.qtyText, side, nowMs, nowMs, false, 0)
  }

  // After the first n levels of a side.
  function ScanUpTo(cfg: Config, s: Scan, levels: seq<Level>, side: Side, price: real, nowMs: int, n: nat): Scan
    requires n <= |levels|
  {
    if n == 0 then s
    else
      var before, l := ScanUpTo(cfg, s, levels, side, price, nowMs, n - 1), levels[n - 1];
      if !IsWall(cfg, levels, price, l) then before
      else
        var key, w := (side, l.price), Seen(before.known, side, l, nowMs);
        Scan(before.walls + [w], Put(before.known, key, w), before.active + {key})
  }

  function ScanAll(cfg: Config, s: Scan, input: Input, side: Side): Scan {
    var levels := SideLevels(cfg, input, side);
    ScanUpTo(cfg, Scan([], s.known, s.active), levels, side, input.price, input.nowMs, |levels|)
  }

  // ---- Expiry of walls that are gone ----

  function AgeS(w: WallInfo, nowMs: int): real {
    (nowMs - w.firstSeenMs) as real / 1000.0
  }

  function Kept(known: Known, active: set<Key>): Known {
    if known == [] then []
    else
      var last := known[|known| - 1];
      Kept(known[..|known| - 1], active) + (if last.0 in active then [last] else [])
  }

  function Flagged(w: WallInfo): WallInfo {
    w.(isSpoofingCandidate := true, disappearCount := w.disappearCount + 1)
  }

  // What one entry adds to the result of its side.
  function Gone(cfg: Config, e: (Key, WallInfo), active: set<Key>, side: Side, nowMs: int): seq<WallInfo> {
    if e.0 !in active && AgeS(e.1, nowMs) < cfg.spoofAgeS && e.1.side == side then [Flagged(e.1)] else []
  }

  // The walls of one side that vanished young, flagged.
  function Vanished(cfg: Config, known: Known, active: set<Key>, side: Side, nowMs: int): seq<WallInfo> {
    if known == [] then []
    else Vanished(cfg, known[..|known| - 1], active, side, nowMs) + Gone(cfg, known[|known| - 1], active, side, nowMs)
  }

  predicate AnyFlagged(ws: seq<WallInfo>) {
    exists i | 0 <= i < |ws| :: ws[i].isSpoofingCandidate
  }

  function Scanned(cfg: Config, known: Known, input: Input): (Scan, Scan) {
    var bids := ScanAll(cfg, Scan([], known, {}), input, Bid);
    (bids, ScanAll(cfg, bids, input, Ask))
  }

  function AfterUpdate(cfg: Config, known: Known, input: Input): (Known, WallsResult) {
    var (b, a) := Scanned(cfg, known, input);
    var bidWalls := b.walls + Vanished(cfg, a.known, a.active, Bid, input.nowMs);
    var askWalls := a.walls + Vanished(cfg, a.known, a.active, Ask, input.nowMs);
    (Kept(a.known, a.active), WallsResult(bidWalls, askWalls, AnyFlagged(bidWalls + askWalls)))
  }

  // ---- The detector ----

  class WallDetector {
    const cfg: Config
    var known: Known

    constructor (cfg: Config)
      ensures this.cfg == cfg && known == []
    {
      this.cfg := cfg;
      known := [];
    }

    method Update(input: Input) returns (result: WallsResult)
      requires UniqueKeys(known)
      modifies this
      ensures UniqueKeys(known)
      ensures (known, result) == AfterUpdate(cfg, old(known), input)
    {
      var active: set<Key> := {};
      var bidWalls, askWalls;
      bidWalls, active := ScanSide(SideLevels(cfg, input, Bid), Bid, input.price, input.nowMs, active);
      askWalls, active := ScanSide(SideLevels(cfg, input, Ask), Ask, input.price, input.nowMs, active);
      var goneBids, goneAsks := ProcessDisappearances(active, input.nowMs);
      bidWalls, askWalls := bidWalls + goneBids, askWalls + goneAsks;
      result := WallsResult(bidWalls, askWalls, AnyFlagged(bidWalls + askWalls));
    }

    method ProcessDisappearances(active: set<Key>, nowMs: int)
      returns (bidWalls: seq<WallInfo>, askWalls: seq<WallInfo>)
      requires UniqueKeys(known)
      modifies this
      ensures UniqueKeys(known) && known == Kept(old(known), active)
      ensures bidWalls == Vanished(cfg, old(known), active, Bid, nowMs)
      ensures askWalls == Vanished(cfg, old(known), active, Ask, nowMs)
    {
      bidWalls, askWalls := [], [];
      var entries := known;
      for i := 0 to |entries|
        invariant known == Kept(entries[..i], active) + entries[i..]
        invariant bidWalls == Vanished(cfg, entries[..i], active, Bid, nowMs)
        invariant askWalls == Vanished(cfg, entries[..i], active, Ask, nowMs)
      {
        ExpiryStep(entries, i, active);
        VanishedStep(cfg, entries, i, active, Bid, nowMs);
        VanishedStep(cfg, entries, i, active, Ask, nowMs);
        if entries[i].0 !in active {
          var goneBids, goneAsks := Expire(entries[i], active, nowMs);
          bidWalls, askWalls := bidWalls + goneBids, askWalls + goneAsks;
        }
      }
      assert entries[..|entries|] == entries;
      KeptSpec(entries, active);
    }

    // Drops one tracked wall; the lists hold its flagged record if it vanished young.
    method Expire(entry: (Key, WallInfo), ghost active: set<Key>, nowMs: int)
      returns (bidWalls: seq<WallInfo>, askWalls: seq<WallInfo>)
      requires entry.0 !in active
      modifies this
      ensures known == Pop(old(known), entry.0)
      ensures bidWalls == Gone(cfg, entry, active, Bid, nowMs)
      ensures askWalls == Gone(cfg, entry, active, Ask, nowMs)
    {
      bidWalls, askWalls := [], [];
      var (key, wall) := entry;
      known := Pop(known, key);
      if AgeS(wall, nowMs) < cfg.spoofAgeS {
        wall := Flagged(wall);
        if wall.side == Bid {
          bidWalls := [wall];
        } else {
          askWalls := [wall];
        }
      }
    }

    method ScanSide(levels: seq<Level>, side: Side, price: real, nowMs: int, active: set<Key>)
      returns (walls: seq<WallInfo>, active': set<Key>)
      requires UniqueKeys(known)
      modifies this
      ensures UniqueKeys(known)
      ensures Scan(walls, known, active')
        == ScanUpTo(cfg, Scan([], old(known), active), levels, side, price, nowMs, |levels|)
    {
      walls, active' := [], active;
      var qtys := PositiveQtys(levels);
      if qtys == [] {
        NoWallsAmong(cfg, Scan([], known, active), levels, side, price, nowMs, |levels|);
        return;
      }
      var avgQty := Sum(qtys) / |qtys| as real;
      for i := 0 to |levels|
        invariant UniqueKeys(known)
        invariant Scan(walls, known, active')
          == ScanUpTo(cfg, Scan([], old(known), active), levels, side, price, nowMs, i)
      {
        var l := levels[i];
        if l.qty <= 0.0 || l.qty * price < cfg.minNotional {
          continue;
        }
        if avgQty == 0.0 || l.qty < avgQty * cfg.threshold {
          continue;
        }
        var key := (side, l.price);
        active' := active' + {key};
        var w := Seen(known, side, l, nowMs);
        PutSpec(known, key, w);
        known := Put(known, key, w);
        walls := walls + [w];
      }
    }
  }

  // What the expiry loop does to the dict at position i.
  lemma ExpiryStep(entries: Known, i: nat, active: set<Key>)
    requires i < |entries| && UniqueKeys(entries)
    ensures entries[..i + 1][..i] == entries[..i]
    ensures var d := Kept(entries[..i], active) + entries[i..];
      (if entries[i].0 in active then d else Pop(d, entries[i].0)) == Kept(entries[..i + 1], active) + entries[i + 1..]
  {
    var kept := Kept(entries[..i], active);
    var d := kept + entries[i..];
    assert entries[..i + 1][..i] == entries[..i];
    assert entries[i..] == [entries[i]] + entries[i + 1..];
    if entries[i].0 !in active {
      KeptSpec(entries[..i], active);
      assert forall j | 0 <= j < |kept| :: kept[j].0 in active;
      PopAt(kept, entries[i], entries[i + 1..]);
      assert kept + [] == kept;
    }
  }

  lemma VanishedStep(cfg: Config, entries: Known, i: nat, active: set<Key>, side: Side, nowMs: int)
    requires i < |entries|
    ensures
      var before, gone := Vanished(cfg, entries[..i], active, side, nowMs), Gone(cfg, entries[i], active, side, nowMs);
      Vanished(cfg, entries[..i + 1], active, side, nowMs) == before + gone ==
        if gone == [] then before else before + gone
  {
    assert entries[..i + 1][..i] == entries[..i];
    var before := Vanished(cfg, entries[..i], active, side, nowMs);
    assert before + [] == before;
  }

  lemma {:induction false} NoWallsAmong(cfg: Config, s: Scan, levels: seq<Level>, side: Side, price: real, nowMs: int,
      n: nat)
    requires n <= |levels| && PositiveQtys(levels) == []
    ensures ScanUpTo(cfg, s, levels, side, price, nowMs, n) == s
  {
    if n > 0 { NoWallsAmong(cfg, s, levels, side, price, nowMs, n - 1); }
  }

  // ---- The number of walls is bounded ----

  function Marks(cfg: Config, levels: seq<Level>, price: real): seq<bool> {
    seq(|levels|, i requires 0 <= i < |levels| => IsWall(cfg, levels, price, levels[i]))
  }

  function Count(marks: seq<bool>): nat {
    if marks == [] then 0 else Count(marks[..|marks| - 1]) + (if marks[|marks| - 1] then 1 else 0)
  }

  lemma {:induction false} ScanCountsMarks(cfg: Config, s: Scan, levels: seq<Level>, side: Side, price: real,
      nowMs: int, n: nat)
    requires n <= |levels|
    ensures |ScanUpTo(cfg, s, levels, side, price, nowMs, n).walls| == |s.walls| + Count(Marks(cfg, levels, price)[..n])
  {
    if n > 0 {
      ScanCountsMarks(cfg, s, levels, side, price, nowMs, n - 1);
      assert Marks(cfg, levels, price)[..n][..n - 1] == Marks(cfg, levels, price)[..n - 1];
    }
  }

  ghost predicate MarkedReach(levels: seq<Level>, marks: seq<bool>, floor: real) {
    |levels| == |marks| && forall i | 0 <= i < |levels| && marks[i] :: levels[i].qty > 0.0 && levels[i].qty >= floor
  }

  // If every marked quantity is positive and reaches floor, the marks cannot outweigh the total.
  lemma {:induction false} MarkedBelowTotal(levels: seq<Level>, marks: seq<bool>, floor: real)
    requires MarkedReach(levels, marks, floor)
    ensures Times(Count(marks), floor) <= Sum(PositiveQtys(levels))
  {
    if levels != [] {
      MarkedBelowTotal(levels[..|levels| - 1], marks[..|marks| - 1], floor);
      PositiveQtysGrow(levels);
    }
  }

  lemma PositiveQtysGrow(levels: seq<Level>)
    requires levels != []
    ensures var q := levels[|levels| - 1].qty;
      Sum(PositiveQtys(levels)) == Sum(PositiveQtys(levels[..|levels| - 1])) + (if q > 0.0 then q else 0.0)
  {
    var init, q := PositiveQtys(levels[..|levels| - 1]), levels[|levels| - 1].qty;
    if q > 0.0 { SumAppend(init, q); } else { assert init + [] == init; }
  }

  lemma {:induction false} QtysArePositive(levels: seq<Level>)
    ensures forall i | 0 <= i < |PositiveQtys(levels)| :: PositiveQtys(levels)[i] > 0.0
    ensures PositiveQtys(levels) != [] ==> Sum(PositiveQtys(levels)) > 0.0
  {
    if levels != [] {
      var init, q := levels[..|levels| - 1], levels[|levels| - 1].qty;
      QtysArePositive(init);
      if q > 0.0 { SumAppend(PositiveQtys(init), q); }
      assert PositiveQtys(init) + [] == PositiveQtys(init);
    }
  }

  // The threshold times the number of walls found on a side is at most the number of levels with a
  // positive quantity, whatever the quantities are.
  lemma WallCountBound(cfg: Config, s: Scan, input: Input, side: Side)
    requires cfg.threshold > 0.0
    ensures cfg.threshold * |ScanAll(cfg, s, input, side).walls| as real
         <= |PositiveQtys(SideLevels(cfg, input, side))| as real
  {
    var levels := SideLevels(cfg, input, side);
    WallsAreMarks(cfg, s, input, side);
    MarkBound(cfg, levels, input.price);
    TimesBound(|ScanAll(cfg, s, input, side).walls|, cfg.threshold, |PositiveQtys(levels)| as real);
  }

  lemma WallsAreMarks(cfg: Config, s: Scan, input: Input, side: Side)
    ensures |ScanAll(cfg, s, input, side).walls| == Count(Marks(cfg, SideLevels(cfg, input, side), input.price))
  {
    var levels := SideLevels(cfg, input, side);
    var marks := Marks(cfg, levels, input.price);
    ScanCountsMarks(cfg, Scan([], s.known, s.active), levels, side, input.price, input.nowMs, |levels|);
    assert marks[..|levels|] == marks;
  }

  lemma TimesBound(n: nat, x: real, bound: real)
    requires Times(n, x) <= bound
    ensures x * n as real <= bound
  {
    TimesIsProduct(n, x);
  }

  lemma MarkBound(cfg: Config, levels: seq<Level>, price: real)
    requires cfg.threshold > 0.0
    ensures Times(Count(Marks(cfg, levels, price)), cfg.threshold) <= |PositiveQtys(levels)| as real
  {
    if PositiveQtys(levels) == [] {
      NoMarks(cfg, levels, price);
    } else {
      WallsWeighAtMostTheTotal(cfg, levels, price);
      QtysArePositive(levels);
      CountBound(Count(Marks(cfg, levels, price)), |PositiveQtys(levels)|, Sum(PositiveQtys(levels)), cfg.threshold);
    }
  }

  // Every wall carries at least threshold times the average quantity.
  lemma WallsWeighAtMostTheTotal(cfg: Config, levels: seq<Level>, price: real)
    requires PositiveQtys(levels) != []
    ensures Times(Count(Marks(cfg, levels, price)),
      Floor(Sum(PositiveQtys(levels)), |PositiveQtys(levels)|, cfg.threshold))
         <= Sum(PositiveQtys(levels))
  {
    MarkedBelowTotal(levels, Marks(cfg, levels, price),
      Floor(Sum(PositiveQtys(levels)), |PositiveQtys(levels)|, cfg.threshold));
  }

  function Floor(total: real, n: nat, threshold: real): real
    requires n > 0
  {
    total / n as real * threshold
  }

  lemma NoMarks(cfg: Config, levels: seq<Level>, price: real)
    requires PositiveQtys(levels) == []
    ensures Count(Marks(cfg, levels, price)) == 0
  {
    AllUnmarked(Marks(cfg, levels, price));
  }

  lemma {:induction false} AllUnmarked(marks: seq<bool>)
    requires forall i | 0 <= i < |marks| :: !marks[i]
    ensures Count(marks) == 0
  {
    if marks != [] { AllUnmarked(marks[..|marks| - 1]); }
  }

  lemma CountBound(walls: nat, n: nat, total: real, threshold: real)
    requires n > 0 && total > 0.0 && threshold > 0.0 && Times(walls, Floor(total, n, threshold)) <= total
    ensures Times(walls, threshold) <= n as real
  {
    TimesIsProduct(walls, threshold);
    var w, m := walls as real, n as real;
    var avg := total / m;
    var floor := Floor(total, n, threshold);
    TimesIsProduct(walls, floor);
    assert avg * m == total;
    QuotientSign(total, m);
    assert w * floor == (threshold * w) * avg;
    assert (m - threshold * w) * avg == total - w * floor;
    SignOfFactor(m - threshold * w, avg);
  }

  // ---- What makes a wall ----

  // Only levels with a positive quantity make up the average.
  lemma {:induction false} PositiveQtysExactly(levels: seq<Level>)
    ensures |PositiveQtys(levels)| == |set i | 0 <= i < |levels| && levels[i].qty > 0.0|
    ensures forall q :: q in PositiveQtys(levels) <==> q > 0.0 && exists i | 0 <= i < |levels| :: levels[i].qty == q
  {
    if levels != [] {
      var init, n := levels[..|levels| - 1], |levels| - 1;
      PositiveQtysExactly(init);
      PositiveLevels(levels);
      assert forall i | 0 <= i < n :: init[i] == levels[i];
    }
  }

  lemma PositiveLevels(levels: seq<Level>)
    requires levels != []
    ensures
      var init, n := levels[..|levels| - 1], |levels| - 1;
      |set i | 0 <= i < |levels| && levels[i].qty > 0.0| ==
        |set i | 0 <= i < |init| && init[i].qty > 0.0| + (if levels[n].qty > 0.0 then 1 else 0)
  {
    var init, n := levels[..|levels| - 1], |levels| - 1;
    var all, before := set i | 0 <= i < |levels| && levels[i].qty > 0.0, set i | 0 <= i < |init| && init[i].qty > 0.0;
    assert all == if levels[n].qty > 0.0 then before + {n} else before;
  }

  lemma PositiveTotal(levels: seq<Level>, l: Level)
    requires l in levels && l.qty > 0.0
    ensures PositiveQtys(levels) != [] && Sum(PositiveQtys(levels)) > 0.0
  {
    PositiveQtysExactly(levels);
    QtysArePositive(levels);
    assert l.qty in PositiveQtys(levels);
  }

  // At least threshold times the mean of the positive quantities, with the mean's denominator cleared.
  predicate StandsOut(levels: seq<Level>, q: real, threshold: real) {
    q * |PositiveQtys(levels)| as real >= threshold * Sum(PositiveQtys(levels))
  }

  // A wall has at least the minimal notional at the current price, and stands out.
  lemma IsWallExactly(cfg: Config, levels: seq<Level>, price: real, l: Level)
    requires l in levels
    ensures IsWall(cfg, levels, price, l) <==>
      l.qty > 0.0 && l.qty * price >= cfg.minNotional && StandsOut(levels, l.qty, cfg.threshold)
  {
    if l.qty > 0.0 {
      PositiveTotal(levels, l);
      ReachesTheThreshold(levels, l.qty, cfg.threshold);
    }
  }

  lemma ReachesTheThreshold(levels: seq<Level>, q: real, threshold: real)
    requires PositiveQtys(levels) != [] && Sum(PositiveQtys(levels)) > 0.0
    ensures AvgQty(levels) != 0.0 && q >= AvgQty(levels) * threshold <==> StandsOut(levels, q, threshold)
  {
    AboveTheMean(q, threshold, Sum(PositiveQtys(levels)), |PositiveQtys(levels)| as real);
  }

  lemma AboveTheMean(q: real, threshold: real, total: real, n: real)
    requires n > 0.0 && total > 0.0
    ensures total / n != 0.0 && (q >= total / n * threshold <==> q * n >= threshold * total)
  {
    var mean := total / n;
    assert mean * n == total;
    QuotientSign(total, n);
    assert (q - mean * threshold) * n == q * n - threshold * total;
    if q >= mean * threshold { ProductSign(q - mean * threshold, n); } else { ProductSign(mean * threshold - q, n); }
  }

  // The walls of a side come from the first levels of its list, as many as the depth says.
  lemma SampledExactly(cfg: Config, input: Input, side: Side, i: nat)
    requires i < |SideLevels(cfg, input, side)|
    ensures
      var list := if side.Bid? then input.bids else input.asks;
      && |SideLevels(cfg, input, side)| == (if |list| < cfg.depth then |list| else cfg.depth)
      && SideLevels(cfg, input, side)[i] == list[i]
  {
  }

  // A wall is young while less than the age limit, in seconds, has passed since it was first seen.
  lemma YoungExactly(cfg: Config, entry: Option<WallInfo>, nowMs: int)
    ensures Young(cfg, entry, nowMs) <==>
      entry.Some? && (nowMs - entry.value.firstSeenMs) as real < 1000.0 * cfg.spoofAgeS
  {
  }

  // ---- What is tracked after an update ----

  predicate QualifiesBefore(cfg: Config, levels: seq<Level>, price: real, p: string, n: nat)
    requires n <= |levels|
  {
    exists i | 0 <= i < n :: levels[i].price == p && IsWall(cfg, levels, price, levels[i])
  }

  // A tracked wall is recorded under its own side and price and is not flagged.
  predicate Clean(k: Key, w: WallInfo) {
    w.side == k.0 && w.price == k.1 && !w.isSpoofingCandidate && w.disappearCount == 0
  }

  ghost predicate AllClean(known: Known) {
    UniqueKeys(known) && forall k :: Get(known, k).Some? ==> Clean(k, Get(known, k).value)
  }

  // When the wall of a key was first seen, once a scan in which it does or does not qualify is done.
  function Refreshed(entry: Option<WallInfo>, qualifies: bool, nowMs: int): Option<int> {
    if entry.Some? then Some(entry.value.firstSeenMs) else if qualifies then Some(nowMs) else None
  }

  function FirstSeen(known: Known, k: Key): Option<int> {
    var entry := Get(known, k);
    if entry.Some? then Some(entry.value.firstSeenMs) else None
  }

  lemma QualifiesStep(cfg: Config, levels: seq<Level>, price: real, p: string, n: nat)
    requires 0 < n <= |levels|
    ensures QualifiesBefore(cfg, levels, price, p, n) <==>
      QualifiesBefore(cfg, levels, price, p, n - 1) ||
        (levels[n - 1].price == p && IsWall(cfg, levels, price, levels[n - 1]))
  {
  }

  lemma {:induction false} ScanEffect(cfg: Config, s: Scan, levels: seq<Level>, side: Side, price: real, nowMs: int,
      n: nat, k: Key)
    requires n <= |levels| && AllClean(s.known)
    ensures var out := ScanUpTo(cfg, s, levels, side, price, nowMs, n);
      && AllClean(out.known)
      && (k in out.active <==> k in s.active || (k.0 == side && QualifiesBefore(cfg, levels, price, k.1, n)))
      && FirstSeen(out.known, k) ==
           Refreshed(Get(s.known, k), k.0 == side && QualifiesBefore(cfg, levels, price, k.1, n), nowMs)
      && (AnyFlagged(out.walls) ==> AnyFlagged(s.walls))
  {
    if n > 0 {
      ScanEffect(cfg, s, levels, side, price, nowMs, n - 1, k);
      var before, l := ScanUpTo(cfg, s, levels, side, price, nowMs, n - 1), levels[n - 1];
      QualifiesStep(cfg, levels, price, k.1, n);
      if IsWall(cfg, levels, price, l) {
        PutSpec(before.known, (side, l.price), Seen(before.known, side, l, nowMs));
      }
    }
  }

  lemma {:induction false} KeptSpec(known: Known, active: set<Key>)
    requires UniqueKeys(known)
    ensures UniqueKeys(Kept(known, active))
    ensures forall i | 0 <= i < |Kept(known, active)| ::
      Kept(known, active)[i] in known && Kept(known, active)[i].0 in active
    ensures forall e | e in known && e.0 in active :: e in Kept(known, active)
  {
    if known != [] {
      var init, last := known[..|known| - 1], known[|known| - 1];
      KeptSpec(init, active);
      assert known == init + [last];
      forall i | 0 <= i < |Kept(init, active)| ensures Kept(init, active)[i].0 != last.0 {
        var j :| 0 <= j < |init| && init[j] == Kept(init, active)[i];
        assert known[j].0 != known[|known| - 1].0;
      }
    }
  }

  lemma KeptLookup(known: Known, active: set<Key>, k: Key)
    requires UniqueKeys(known)
    ensures Get(Kept(known, active), k) == if k in active then Get(known, k) else None
  {
    var kept := Kept(known, active);
    KeptSpec(known, active);
    GetHasKey(kept, k);
    GetHasKey(known, k);
    if Get(known, k).Some? && k in active {
      assert (k, Get(known, k).value) in kept;
      var i :| 0 <= i < |kept| && kept[i] == (k, Get(known, k).value);
    }
    forall i | 0 <= i < |kept| && kept[i].0 == k ensures k in active && HasKey(known, k) {
      var j :| 0 <= j < |known| && known[j] == kept[i];
    }
  }

  // After an update exactly the keys that qualify in it are tracked: those tracked before keep their
  // first sighting, the others start now, and none is flagged.
  lemma UpdateTracksQualifyingKeys(cfg: Config, known: Known, input: Input, k: Key)
    requires AllClean(known)
    ensures var out := AfterUpdate(cfg, known, input).0;
      && AllClean(out)
      && (Get(out, k).Some? <==> Qualifies(cfg, input, k))
      && (Qualifies(cfg, input, k) ==>
            FirstSeen(out, k) == if Get(known, k).Some? then FirstSeen(known, k) else Some(input.nowMs))
  {
    var (b, a) := Scanned(cfg, known, input);
    var out := AfterUpdate(cfg, known, input).0;
    ScansTogether(cfg, known, input, k);
    KeptSpec(a.known, a.active);
    KeptLookup(a.known, a.active, k);
    forall j | Get(out, j).Some? ensures Clean(j, Get(out, j).value) {
      KeptLookup(a.known, a.active, j);
    }
  }

  lemma ScansTogether(cfg: Config, known: Known, input: Input, k: Key)
    requires AllClean(known)
    ensures var (b, a) := Scanned(cfg, known, input);
      && AllClean(a.known)
      && (k in a.active <==> Qualifies(cfg, input, k))
      && FirstSeen(a.known, k) == Refreshed(Get(known, k), Qualifies(cfg, input, k), input.nowMs)
      && !AnyFlagged(b.walls) && !AnyFlagged(a.walls)
  {
    var bids, asks := SideLevels(cfg, input, Bid), SideLevels(cfg, input, Ask);
    var s0 := Scan([], known, {});
    var b := ScanAll(cfg, s0, input, Bid);
    ScanEffect(cfg, s0, bids, Bid, input.price, input.nowMs, |bids|, k);
    ScanEffect(cfg, Scan([], b.known, b.active), asks, Ask, input.price, input.nowMs, |asks|, k);
  }

  // ---- The spoofing alert ----

  predicate FlaggedAs(w: WallInfo, k: Key) {
    w.isSpoofingCandidate && (w.side, w.price) == k
  }

  predicate Flags(ws: seq<WallInfo>, k: Key) {
    exists i | 0 <= i < |ws| :: FlaggedAs(ws[i], k)
  }

  lemma FlagsConcat(ws: seq<WallInfo>, vs: seq<WallInfo>, k: Key)
    ensures Flags(ws + vs, k) <==> Flags(ws, k) || Flags(vs, k)
    ensures AnyFlagged(ws + vs) <==> AnyFlagged(ws) || AnyFlagged(vs)
  {
    var all := ws + vs;
    assert forall i | 0 <= i < |ws| :: all[i] == ws[i];
    assert forall i | 0 <= i < |vs| :: all[|ws| + i] == vs[i];
  }

  lemma AnyFlaggedHasAKey(ws: seq<WallInfo>)
    ensures AnyFlagged(ws) <==> exists k :: Flags(ws, k)
  {
    if AnyFlagged(ws) {
      var i :| 0 <= i < |ws| && ws[i].isSpoofingCandidate;
      assert FlaggedAs(ws[i], (ws[i].side, ws[i].price));
      assert Flags(ws, (ws[i].side, ws[i].price));
    }
  }

  predicate Young(cfg: Config, entry: Option<WallInfo>, nowMs: int) {
    entry.Some? && AgeS(entry.value, nowMs) < cfg.spoofAgeS
  }

  lemma {:induction false} VanishedFlags(cfg: Config, known: Known, active: set<Key>, side: Side, nowMs: int, k: Key)
    requires AllClean(known)
    ensures Flags(Vanished(cfg, known, active, side, nowMs), k) <==>
      k.0 == side && k !in active && Young(cfg, Get(known, k), nowMs)
  {
    if known != [] {
      var init, last := known[..|known| - 1], known[|known| - 1];
      CleanPrefix(known);
      VanishedFlags(cfg, init, active, side, nowMs, k);
      FlagsConcat(Vanished(cfg, init, active, side, nowMs), Gone(cfg, last, active, side, nowMs), k);
      GetOfTheLast(known, k);
      GetOfTheLast(known, last.0);
      GoneFlags(cfg, last, active, side, nowMs, k);
    }
  }

  lemma GetOfTheLast(known: Known, k: Key)
    requires UniqueKeys(known) && known != []
    ensures Get(known, k) ==
      if k == known[|known| - 1].0 then Some(known[|known| - 1].1) else Get(known[..|known| - 1], k)
    ensures k == known[|known| - 1].0 ==> Get(known[..|known| - 1], k) == None
  {
    var init := known[..|known| - 1];
    assert forall i | 0 <= i < |init| :: init[i] == known[i];
    GetHasKey(known, k);
    GetHasKey(init, k);
  }

  lemma GoneFlags(cfg: Config, e: (Key, WallInfo), active: set<Key>, side: Side, nowMs: int, k: Key)
    requires Clean(e.0, e.1)
    ensures Flags(Gone(cfg, e, active, side, nowMs), k) <==>
      e.0 == k && k.0 == side && k !in active && AgeS(e.1, nowMs) < cfg.spoofAgeS
  {
    var gone := Gone(cfg, e, active, side, nowMs);
    if gone != [] { assert FlaggedAs(gone[0], e.0); }
  }

  lemma CleanPrefix(known: Known)
    requires AllClean(known) && known != []
    ensures AllClean(known[..|known| - 1])
  {
    var init := known[..|known| - 1];
    assert forall i | 0 <= i < |init| :: init[i] == known[i];
    forall k | Get(init, k).Some? ensures Clean(k, Get(init, k).value) {
      GetHasKey(init, k);
      var i :| 0 <= i < |init| && init[i] == (k, Get(init, k).value);
      GetHasKey(known, k);
      assert known[i].0 == k;
    }
  }

  // The wall of key k was tracked, is gone, and was seen first less than the limit ago.
  predicate VanishedYoung(cfg: Config, known: Known, input: Input, k: Key) {
    !Qualifies(cfg, input, k) && Young(cfg, Get(known, k), input.nowMs)
  }

  // An update flags exactly the walls tracked before that vanished young.
  lemma FlaggedExactly(cfg: Config, known: Known, input: Input, k: Key)
    requires AllClean(known)
    ensures var r := AfterUpdate(cfg, known, input).1;
      Flags(r.bidWalls + r.askWalls, k) <==> VanishedYoung(cfg, known, input, k)
  {
    var (b, a) := Scanned(cfg, known, input);
    ScansTogether(cfg, known, input, k);
    var goneBids := Vanished(cfg, a.known, a.active, Bid, input.nowMs);
    var goneAsks := Vanished(cfg, a.known, a.active, Ask, input.nowMs);
    VanishedFlags(cfg, a.known, a.active, Bid, input.nowMs, k);
    VanishedFlags(cfg, a.known, a.active, Ask, input.nowMs, k);
    FlagsConcat(b.walls + goneBids, a.walls + goneAsks, k);
    FlagsConcat(b.walls, goneBids, k);
    FlagsConcat(a.walls, goneAsks, k);
    AnyFlaggedHasAKey(b.walls);
    AnyFlaggedHasAKey(a.walls);
  }

  // The alert is raised exactly when some wall tracked before vanished young.
  lemma AlertIsExact(cfg: Config, known: Known, input: Input)
    requires AllClean(known)
    ensures AfterUpdate(cfg, known, input).1.spoofingAlert <==> exists k :: VanishedYoung(cfg, known, input, k)
  {
    var r := AfterUpdate(cfg, known, input).1;
    AnyFlaggedHasAKey(r.bidWalls + r.askWalls);
    forall k ensures Flags(r.bidWalls + r.askWalls, k) <==> VanishedYoung(cfg, known, input, k) {
      FlaggedExactly(cfg, known, input, k);
    }
  }

  // ---- What an update reports ----

  // When the wall of a key that qualifies was first seen: at its earlier sighting if it was tracked.
  function SeenSince(known: Known, k: Key, nowMs: int): int {
    var entry := Get(known, k);
    if entry.Some? then entry.value.firstSeenMs else nowMs
  }

  // The record of a standing wall at a level.
  function Standing(known: Known, side: Side, l: Level, nowMs: int): WallInfo {
    WallInfo(l.price, l.qtyText, side, SeenSince(known, (side, l.price), nowMs), nowMs, false, 0)
  }

  lemma {:induction false} ScanLists(
    cfg: Config, s: Scan, levels: seq<Level>, side: Side, price: real, nowMs: int, n: nat, w: WallInfo)
    requires n <= |levels| && AllClean(s.known) && s.walls == []
    ensures w in ScanUpTo(cfg, s, levels, side, price, nowMs, n).walls <==>
      exists i | 0 <= i < n :: IsWall(cfg, levels, price, levels[i]) && w == Standing(s.known, side, levels[i], nowMs)
  {
    if n > 0 {
      ScanLists(cfg, s, levels, side, price, nowMs, n - 1, w);
      ScanEffect(cfg, s, levels, side, price, nowMs, n - 1, (side, levels[n - 1].price));
      var before, l := ScanUpTo(cfg, s, levels, side, price, nowMs, n - 1), levels[n - 1];
      SeenIsStanding(before.known, s.known, side, l, nowMs);
    }
  }

  lemma SeenIsStanding(before: Known, start: Known, side: Side, l: Level, nowMs: int)
    requires AllClean(before)
    requires FirstSeen(before, (side, l.price)) in {None, Some(SeenSince(start, (side, l.price), nowMs))}
    requires FirstSeen(before, (side, l.price)).None? ==> Get(start, (side, l.price)).None?
    ensures Seen(before, side, l, nowMs) == Standing(start, side, l, nowMs)
  {
  }

  // The unflagged records of a side are those of its walls in this update, with their latest quantity.
  lemma StandingWallsExactly(cfg: Config, known: Known, input: Input, side: Side, w: WallInfo)
    requires AllClean(known) && !w.isSpoofingCandidate
    ensures
      var r, levels := AfterUpdate(cfg, known, input).1, SideLevels(cfg, input, side);
      w in (if side.Bid? then r.bidWalls else r.askWalls) <==>
        exists i | 0 <= i < |levels| ::
          IsWall(cfg, levels, input.price, levels[i]) && w == Standing(known, side, levels[i], input.nowMs)
  {
    var (b, a) := Scanned(cfg, known, input);
    var levels := SideLevels(cfg, input, side);
    var bids := SideLevels(cfg, input, Bid);
    ScansTogether(cfg, known, input, (Bid, ""));
    VanishedAreFlagged(cfg, a.known, a.active, side, input.nowMs);
    if side.Bid? {
      ScanLists(cfg, Scan([], known, {}), levels, Bid, input.price, input.nowMs, |levels|, w);
    } else {
      ScanEffect(cfg, Scan([], known, {}), bids, Bid, input.price, input.nowMs, |bids|, (Ask, ""));
      ScanLists(cfg, Scan([], b.known, b.active), levels, Ask, input.price, input.nowMs, |levels|, w);
      forall i | 0 <= i < |levels|
        ensures Standing(b.known, Ask, levels[i], input.nowMs) == Standing(known, Ask, levels[i], input.nowMs)
      {
        ScanEffect(cfg, Scan([], known, {}), bids, Bid, input.price, input.nowMs, |bids|, (Ask, levels[i].price));
      }
    }
  }

  // The record of k is that of a level of this update.
  ghost predicate TrackedAs(
    cfg: Config, start: Known, levels: seq<Level>, price: real, nowMs: int, n: nat, k: Key, entry: Option<WallInfo>)
    requires n <= |levels|
  {
    exists i | 0 <= i < n ::
      && IsWall(cfg, levels, price, levels[i]) && levels[i].price == k.1
      && entry == Some(Standing(start, k.0, levels[i], nowMs))
  }

  lemma {:induction false} ScanTracks(
    cfg: Config, s: Scan, levels: seq<Level>, side: Side, price: real, nowMs: int, n: nat, p: string)
    requires n <= |levels| && AllClean(s.known) && QualifiesBefore(cfg, levels, price, p, n)
    ensures TrackedAs(cfg, s.known, levels, price, nowMs, n, (side, p),
                      Get(ScanUpTo(cfg, s, levels, side, price, nowMs, n).known, (side, p)))
  {
    var before, l := ScanUpTo(cfg, s, levels, side, price, nowMs, n - 1), levels[n - 1];
    ScanEffect(cfg, s, levels, side, price, nowMs, n - 1, (side, l.price));
    QualifiesStep(cfg, levels, price, p, n);
    if IsWall(cfg, levels, price, l) {
      PutSpec(before.known, (side, l.price), Seen(before.known, side, l, nowMs));
      SeenIsStanding(before.known, s.known, side, l, nowMs);
    }
    if !IsWall(cfg, levels, price, l) || l.price != p {
      ScanTracks(cfg, s, levels, side, price, nowMs, n - 1, p);
    }
  }

  // A wall is tracked with the quantity and time of this update, as one of its levels shows it.
  lemma TrackedRecordExactly(cfg: Config, known: Known, input: Input, k: Key)
    requires AllClean(known) && Qualifies(cfg, input, k)
    ensures
      var levels := SideLevels(cfg, input, k.0);
      TrackedAs(cfg, known, levels, input.price, input.nowMs, |levels|, k, Get(AfterUpdate(cfg, known, input).0, k))
  {
    var (b, a) := Scanned(cfg, known, input);
    var bids, asks := SideLevels(cfg, input, Bid), SideLevels(cfg, input, Ask);
    ScansTogether(cfg, known, input, k);
    KeptLookup(a.known, a.active, k);
    ScanEffect(cfg, Scan([], known, {}), bids, Bid, input.price, input.nowMs, |bids|, k);
    if k.0.Bid? {
      ScanTracks(cfg, Scan([], known, {}), bids, Bid, input.price, input.nowMs, |bids|, k.1);
      ScanKeepsOthers(cfg, Scan([], b.known, b.active), asks, Ask, input.price, input.nowMs, |asks|, k);
    } else {
      ScanKeepsOthers(cfg, Scan([], known, {}), bids, Bid, input.price, input.nowMs, |bids|, k);
      ScanTracks(cfg, Scan([], b.known, b.active), asks, Ask, input.price, input.nowMs, |asks|, k.1);
    }
  }

  lemma {:induction false} VanishedAreFlagged(cfg: Config, known: Known, active: set<Key>, side: Side, nowMs: int)
    ensures forall w | w in Vanished(cfg, known, active, side, nowMs) :: w.isSpoofingCandidate
  {
    if known != [] { VanishedAreFlagged(cfg, known[..|known| - 1], active, side, nowMs); }
  }

  lemma {:induction false} VanishedMembers(
    cfg: Config, known: Known, active: set<Key>, side: Side, nowMs: int, w: WallInfo)
    ensures w in Vanished(cfg, known, active, side, nowMs) <==>
      exists e | e in known :: w in Gone(cfg, e, active, side, nowMs)
  {
    if known != [] {
      VanishedMembers(cfg, known[..|known| - 1], active, side, nowMs, w);
      assert known == known[..|known| - 1] + [known[|known| - 1]];
    }
  }

  lemma {:induction false} ScanKeepsOthers(
    cfg: Config, s: Scan, levels: seq<Level>, side: Side, price: real, nowMs: int, n: nat, k: Key)
    requires n <= |levels| && AllClean(s.known)
    requires k.0 == side ==> !QualifiesBefore(cfg, levels, price, k.1, n)
    ensures Get(ScanUpTo(cfg, s, levels, side, price, nowMs, n).known, k) == Get(s.known, k)
  {
    if n > 0 {
      ScanKeepsOthers(cfg, s, levels, side, price, nowMs, n - 1, k);
      ScanEffect(cfg, s, levels, side, price, nowMs, n - 1, k);
      var before, l := ScanUpTo(cfg, s, levels, side, price, nowMs, n - 1), levels[n - 1];
      if IsWall(cfg, levels, price, l) {
        PutSpec(before.known, (side, l.price), Seen(before.known, side, l, nowMs));
      }
    }
  }

  lemma UntouchedRecord(cfg: Config, known: Known, input: Input, k: Key)
    requires AllClean(known) && !Qualifies(cfg, input, k)
    ensures Get(Scanned(cfg, known, input).1.known, k) == Get(known, k)
  {
    var bids, asks := SideLevels(cfg, input, Bid), SideLevels(cfg, input, Ask);
    var b := ScanAll(cfg, Scan([], known, {}), input, Bid);
    ScanEffect(cfg, Scan([], known, {}), bids, Bid, input.price, input.nowMs, |bids|, k);
    ScanKeepsOthers(cfg, Scan([], known, {}), bids, Bid, input.price, input.nowMs, |bids|, k);
    ScanKeepsOthers(cfg, Scan([], b.known, b.active), asks, Ask, input.price, input.nowMs, |asks|, k);
  }

  // The last record of a wall, flagged, and counted as gone once.
  function Marked(w: WallInfo): WallInfo {
    WallInfo(w.price, w.qty, w.side, w.firstSeenMs, w.lastSeenMs, true, 1)
  }

  // The flagged records of a side are the last ones of its walls that vanished young, as they were tracked.
  lemma FlaggedWallsExactly(cfg: Config, known: Known, input: Input, side: Side, w: WallInfo)
    requires AllClean(known) && w.isSpoofingCandidate
    ensures
      var r := AfterUpdate(cfg, known, input).1;
      w in (if side.Bid? then r.bidWalls else r.askWalls) <==>
        exists k: Key :: k.0 == side && VanishedYoung(cfg, known, input, k) && w == Marked(Get(known, k).value)
  {
    var (b, a) := Scanned(cfg, known, input);
    ScansTogether(cfg, known, input, (side, ""));
    VanishedMembers(cfg, a.known, a.active, side, input.nowMs, w);
    var gone := Vanished(cfg, a.known, a.active, side, input.nowMs);
    if w in gone {
      var e :| e in a.known && w in Gone(cfg, e, a.active, side, input.nowMs);
      GetHasKey(a.known, e.0);
      ScansTogether(cfg, known, input, e.0);
      UntouchedRecord(cfg, known, input, e.0);
      assert e.0.0 == side && VanishedYoung(cfg, known, input, e.0) && w == Marked(Get(known, e.0).value);
    }
    forall k: Key | k.0 == side && VanishedYoung(cfg, known, input, k) && w == Marked(Get(known, k).value)
      ensures w in gone
    {
      ScansTogether(cfg, known, input, k);
      UntouchedRecord(cfg, known, input, k);
      GetHasKey(a.known, k);
      assert w in Gone(cfg, (k, Get(known, k).value), a.active, side, input.nowMs);
    }
  }

  lemma {:induction false} ScanListsInOrder(
    cfg: Config, s: Scan, levels: seq<Level>, side: Side, price: real, nowMs: int, n: nat, i: nat)
    requires i < n <= |levels| && AllClean(s.known) && s.walls == [] && IsWall(cfg, levels, price, levels[i])
    ensures
      var walls, at := ScanUpTo(cfg, s, levels, side, price, nowMs, n).walls, Count(Marks(cfg, levels, price)[..i]);
      at < |walls| && walls[at] == Standing(s.known, side, levels[i], nowMs)
  {
    ScanCountsMarks(cfg, s, levels, side, price, nowMs, n - 1);
    if i < n - 1 {
      ScanListsInOrder(cfg, s, levels, side, price, nowMs, n - 1, i);
    } else {
      ScanEffect(cfg, s, levels, side, price, nowMs, n - 1, (side, levels[n - 1].price));
      var before := ScanUpTo(cfg, s, levels, side, price, nowMs, n - 1);
      SeenIsStanding(before.known, s.known, side, levels[n - 1], nowMs);
    }
  }

  ghost predicate DistinctPrices(ws: seq<WallInfo>) {
    forall i, j | 0 <= i < j < |ws| :: ws[i].price != ws[j].price
  }

  ghost predicate TrackedIn(ws: seq<WallInfo>, known: Known, side: Side) {
    forall i | 0 <= i < |ws| :: HasKey(known, (side, ws[i].price))
  }

  lemma KeyStays(known: Known, k: Key)
    requires known != [] && HasKey(known[..|known| - 1], k)
    ensures HasKey(known, k)
  {
    var i :| 0 <= i < |known| - 1 && known[..|known| - 1][i].0 == k;
    assert known[i].0 == k;
  }

  lemma AddVanished(ws: seq<WallInfo>, w: WallInfo, known: Known, side: Side)
    requires known != [] && known[|known| - 1].0 == (side, w.price)
    requires DistinctPrices(ws) && TrackedIn(ws, known[..|known| - 1], side)
    requires !HasKey(known[..|known| - 1], (side, w.price))
    ensures DistinctPrices(ws + [w]) && TrackedIn(ws + [w], known, side)
  {
    var out := ws + [w];
    forall i | 0 <= i < |out| ensures HasKey(known, (side, out[i].price)) {
      if i < |ws| { KeyStays(known, (side, ws[i].price)); }
    }
  }

  lemma {:induction false} VanishedOnce(cfg: Config, known: Known, active: set<Key>, side: Side, nowMs: int)
    requires AllClean(known)
    ensures DistinctPrices(Vanished(cfg, known, active, side, nowMs))
    ensures TrackedIn(Vanished(cfg, known, active, side, nowMs), known, side)
  {
    if known != [] {
      var init, last := known[..|known| - 1], known[|known| - 1];
      var before := Vanished(cfg, init, active, side, nowMs);
      CleanPrefix(known);
      VanishedOnce(cfg, init, active, side, nowMs);
      GetOfTheLast(known, last.0);
      GetHasKey(init, last.0);
      if Gone(cfg, last, active, side, nowMs) == [] {
        assert before + [] == before;
        forall i | 0 <= i < |before| ensures HasKey(known, (side, before[i].price)) {
          KeyStays(known, (side, before[i].price));
        }
      } else {
        assert Clean(last.0, last.1);
        AddVanished(before, Flagged(last.1), known, side);
      }
    }
  }

  // The scan of a side as the update makes it: the asks after the bids.
  function SideScan(cfg: Config, known: Known, input: Input, side: Side): Scan {
    var (b, a) := Scanned(cfg, known, input);
    if side.Bid? then b else a
  }

  lemma SideScanInOrder(cfg: Config, known: Known, input: Input, side: Side, i: nat)
    requires AllClean(known) && i < |SideLevels(cfg, input, side)|
    requires var levels := SideLevels(cfg, input, side); IsWall(cfg, levels, input.price, levels[i])
    ensures
      var walls, levels := SideScan(cfg, known, input, side).walls, SideLevels(cfg, input, side);
      var at := Count(Marks(cfg, levels, input.price)[..i]);
      at < |walls| && walls[at] == Standing(known, side, levels[i], input.nowMs)
  {
    var levels, bids := SideLevels(cfg, input, side), SideLevels(cfg, input, Bid);
    var start := Scan([], known, {});
    if side.Bid? {
      ScanListsInOrder(cfg, start, levels, Bid, input.price, input.nowMs, |levels|, i);
    } else {
      var b := ScanAll(cfg, start, input, Bid);
      ScanEffect(cfg, start, bids, Bid, input.price, input.nowMs, |bids|, (Ask, levels[i].price));
      ScanListsInOrder(cfg, Scan([], b.known, b.active), levels, Ask, input.price, input.nowMs, |levels|, i);
    }
  }

  // The list of a side: first its walls, one record per level and in the order of the levels ...
  lemma WallsComeFirst(cfg: Config, known: Known, input: Input, side: Side, i: nat)
    requires AllClean(known) && i < |SideLevels(cfg, input, side)|
    requires var levels := SideLevels(cfg, input, side); IsWall(cfg, levels, input.price, levels[i])
    ensures
      var r, levels := AfterUpdate(cfg, known, input).1, SideLevels(cfg, input, side);
      var list, at := if side.Bid? then r.bidWalls else r.askWalls, Count(Marks(cfg, levels, input.price)[..i]);
      at < |list| && list[at] == Standing(known, side, levels[i], input.nowMs)
  {
    SideScanInOrder(cfg, known, input, side, i);
  }

  // ... then the flagged records, one per vanished wall.
  lemma FlaggedComeLast(cfg: Config, known: Known, input: Input, side: Side)
    requires AllClean(known)
    ensures
      var r, levels := AfterUpdate(cfg, known, input).1, SideLevels(cfg, input, side);
      var list, n := if side.Bid? then r.bidWalls else r.askWalls, Count(Marks(cfg, levels, input.price));
      && n <= |list| && (forall i | n <= i < |list| :: list[i].isSpoofingCandidate)
      && (forall i, j | n <= i < j < |list| :: list[i].price != list[j].price)
  {
    var a, levels := Scanned(cfg, known, input).1, SideLevels(cfg, input, side);
    var gone := Vanished(cfg, a.known, a.active, side, input.nowMs);
    WallsOfTheScan(cfg, known, input, side);
    ScansTogether(cfg, known, input, (side, ""));
    VanishedAreFlagged(cfg, a.known, a.active, side, input.nowMs);
    VanishedOnce(cfg, a.known, a.active, side, input.nowMs);
    var walls := SideScan(cfg, known, input, side).walls;
    FlaggedTail(walls, gone);
  }

  lemma WallsOfTheScan(cfg: Config, known: Known, input: Input, side: Side)
    ensures |SideScan(cfg, known, input, side).walls| == Count(Marks(cfg, SideLevels(cfg, input, side), input.price))
  {
    var start := Scan([], known, {});
    WallsAreMarks(cfg, if side.Bid? then start else ScanAll(cfg, start, input, Bid), input, side);
  }

  lemma FlaggedTail(walls: seq<WallInfo>, gone: seq<WallInfo>)
    requires forall w | w in gone :: w.isSpoofingCandidate
    requires DistinctPrices(gone)
    ensures
      var list, n := walls + gone, |walls|;
      && (forall i | n <= i < |list| :: list[i].isSpoofingCandidate)
      && (forall i, j | n <= i < j < |list| :: list[i].price != list[j].price)
  {
    var list, n := walls + gone, |walls|;
    assert forall i | n <= i < |list| :: list[i] == gone[i - n] && gone[i - n] in gone;
  }

  // The price has passed the level: below a bid, above an ask.
  predicate TradedThrough(num: string -> real, k: Key, price: real) {
    if k.0.Bid? then price < num(k.1) else price > num(k.1)
  }

  // Flags are promised only for walls that vanish without being traded through.  The price at which the
  // wall vanishes plays no part, so the promise is kept exactly if no wall that vanishes young is at a
  // level the price has passed.
  lemma OnlyUntradedWallsAreFlaggedExactly(cfg: Config, known: Known, input: Input, num: string -> real)
    requires AllClean(known)
    ensures var r := AfterUpdate(cfg, known, input).1;
      (forall k | Flags(r.bidWalls + r.askWalls, k) :: !TradedThrough(num, k, input.price)) <==>
      (forall k | VanishedYoung(cfg, known, input, k) :: !TradedThrough(num, k, input.price))
  {
    var r := AfterUpdate(cfg, known, input).1;
    forall k ensures Flags(r.bidWalls + r.askWalls, k) <==> VanishedYoung(cfg, known, input, k) {
      FlaggedExactly(cfg, known, input, k);
    }
  }

  // ---- Whole runs ----

  function Run(cfg: Config, inputs: seq<Input>): Known {
    if inputs == [] then [] else AfterUpdate(cfg, Run(cfg, inputs[..|inputs| - 1]), inputs[|inputs| - 1]).0
  }

  // Where the unbroken streak of elements of kind p up to the last one begins.
  function StreakStart<T>(xs: seq<T>, p: T -> bool): (start: nat)
    requires xs != [] && p(xs[|xs| - 1])
    ensures start < |xs| && forall i | start <= i < |xs| :: p(xs[i])
    ensures start > 0 ==> !p(xs[start - 1])
  {
    var init := xs[..|xs| - 1];
    if init == [] || !p(init[|init| - 1]) then |init| else StreakStart(init, p)
  }

  function Test(cfg: Config, k: Key): Input -> bool {
    (input: Input) => Qualifies(cfg, input, k)
  }

  // When the present streak of updates in which k qualifies began.
  function StreakSince(cfg: Config, inputs: seq<Input>, k: Key): int
    requires inputs != [] && Qualifies(cfg, inputs[|inputs| - 1], k)
  {
    inputs[StreakStart(inputs, Test(cfg, k))].nowMs
  }

  // In every run the tracked keys are those that qualify in the latest update, each first seen at the
  // start of its current streak, and no tracked wall is ever flagged.
  lemma {:induction false} TrackedWallsOfARun(cfg: Config, inputs: seq<Input>, k: Key)
    ensures AllClean(Run(cfg, inputs))
    ensures Get(Run(cfg, inputs), k).Some? <==> inputs != [] && Qualifies(cfg, inputs[|inputs| - 1], k)
    ensures Get(Run(cfg, inputs), k).Some? ==> FirstSeen(Run(cfg, inputs), k) == Some(StreakSince(cfg, inputs, k))
  {
    if inputs != [] {
      var init, last := inputs[..|inputs| - 1], inputs[|inputs| - 1];
      TrackedWallsOfARun(cfg, init, k);
      UpdateTracksQualifyingKeys(cfg, Run(cfg, init), last, k);
    }
  }

  // The streak of k ends in the next update, younger than the limit.
  predicate EndsYoung(cfg: Config, inputs: seq<Input>, next: Input, k: Key) {
    inputs != [] && Qualifies(cfg, inputs[|inputs| - 1], k) && !Qualifies(cfg, next, k) &&
    (next.nowMs - StreakSince(cfg, inputs, k)) as real / 1000.0 < cfg.spoofAgeS
  }

  // The alert of the next update, in terms of the run alone.
  lemma AlertOfARun(cfg: Config, inputs: seq<Input>, next: Input)
    ensures AfterUpdate(cfg, Run(cfg, inputs), next).1.spoofingAlert <==> exists k :: EndsYoung(cfg, inputs, next, k)
  {
    var known := Run(cfg, inputs);
    TrackedWallsOfARun(cfg, inputs, (Bid, ""));
    AlertIsExact(cfg, known, next);
    forall k ensures VanishedYoung(cfg, known, next, k) <==> EndsYoung(cfg, inputs, next, k) {
      TrackedWallsOfARun(cfg, inputs, k);
    }
  }

  // A bid wall of 2000 at 100 stands, the price falls to 99, the wall is gone a second later: an alert.
  lemma TradedThroughWallRaisesTheAlert(num: string -> real)
    requires num("100") == 100.0
    ensures exists cfg: Config, before: Input, after: Input, k: Key ::
      && TradedThrough(num, k, after.price) && EndsYoung(cfg, [before], after, k)
      && AfterUpdate(cfg, Run(cfg, [before]), after).1.spoofingAlert
  {
    var cfg := Config(100000.0, 3.0, 20, 30.0);
    var wall, small := Level("100", "2000", 2000.0), Level("98", "1", 1.0);
    var before, after := Input([wall, small, small, small], [], 101.0, 0), Input([], [], 99.0, 1000);
    var k: Key := (Bid, "100");
    AverageOfFour(wall, small);
    assert SideLevels(cfg, before, Bid) == before.bids && SideLevels(cfg, after, Bid) == [];
    assert IsWall(cfg, before.bids, before.price, before.bids[0]);
    assert Qualifies(cfg, before, k) && !Qualifies(cfg, after, k);
    assert EndsYoung(cfg, [before], after, k);
    AlertOfARun(cfg, [before], after);
  }

  lemma AverageOfFour(a: Level, b: Level)
    requires a.qty > 0.0 && b.qty > 0.0
    ensures AvgQty([a, b, b, b]) == (a.qty + 3.0 * b.qty) / 4.0
  {
    assert [a, b, b, b][..3] == [a, b, b] && [a, b, b][..2] == [a, b] && [a, b][..1] == [a] && [a][..0] == [];
    assert PositiveQtys([a]) == [a.qty] && PositiveQtys([a, b]) == [a.qty, b.qty];
    assert PositiveQtys([a, b, b]) == [a.qty, b.qty, b.qty];
    assert PositiveQtys([a, b, b, b]) == [a.qty, b.qty, b.qty, b.qty];
    SumAppend([], a.qty);
    SumAppend([a.qty], b.qty);
    SumAppend([a.qty, b.qty], b.qty);
    SumAppend([a.qty, b.qty, b.qty], b.qty);
    assert [] + [a.qty] == [a.qty] && [a.qty] + [b.qty] == [a.qty, b.qty];
    assert [a.qty, b.qty] + [b.qty] == [a.qty, b.qty, b.qty];
    assert [a.qty, b.qty, b.qty] + [b.qty] == [a.qty, b.qty, b.qty, b.qty];
  }
}
