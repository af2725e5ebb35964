// Liquidation clusters: recent liquidations are put into price buckets, and the buckets with enough
// records become clusters, largest notional first.
module Liquidations {
  import opened Wrappers
  import opened Sequences
  import opened OrderedDict
  import opened StableSorting

  datatype Side = Buy | Sell | OtherSide(text: string)

  datatype Record = Record(side: Side, qty: real, price: real, timestampMs: int)

  datatype Cluster = Cluster(
    priceMid: real, bucketLow: real, bucketHigh: real, count: nat,
    totalQty: real, totalUsd: real, longQty: real, shortQty: real)

  type Buckets = seq<(int, seq<Record>)>

  // Python's int(): truncation toward zero.
  function Truncate(x: real): int {
    if x >= 0.0 then x.Floor else -((-x).Floor)
  }

  function Index(price: real, size: real): int
    requires size > 0.0
  {
    Truncate(price / size)
  }

  function Low(i: int, size: real): real {
    i as real * size
  }

  // ---- Sums over records ----

  function Usd(rs: seq<Record>): real {
    if rs == [] then 0.0 else Usd(rs[..|rs| - 1]) + rs[|rs| - 1].qty * rs[|rs| - 1].price
  }

  function SideUsd(rs: seq<Record>, side: Side): real {
    if rs == [] then 0.0
    else
      var r := rs[|rs| - 1];
      SideUsd(rs[..|rs| - 1], side) + (if r.side == side then r.qty * r.price else 0.0)
  }

  function Qty(rs: seq<Record>): real {
    if rs == [] then 0.0 else Qty(rs[..|rs| - 1]) + rs[|rs| - 1].qty
  }

  function SideQty(rs: seq<Record>, side: Side): real {
    if rs == [] then 0.0
    else
      var r := rs[|rs| - 1];
      SideQty(rs[..|rs| - 1], side) + (if r.side == side then r.qty else 0.0)
  }

  function Recent(rs: seq<Record>, cutoffMs: int): seq<Record> {
    if rs == [] then []
    else
      var r := rs[|rs| - 1];
      Recent(rs[..|rs| - 1], cutoffMs) + (if r.timestampMs >= cutoffMs then [r] else [])
  }

  // One more record: its notional and quantity are added to the totals and to its own side only.
  lemma SumsAppend(rs: seq<Record>, r: Record, side: Side)
    ensures Usd(rs + [r]) == Usd(rs) + r.qty * r.price && Qty(rs + [r]) == Qty(rs) + r.qty
    ensures SideUsd(rs + [r], side) == SideUsd(rs, side) + (if r.side == side then r.qty * r.price else 0.0)
    ensures SideQty(rs + [r], side) == SideQty(rs, side) + (if r.side == side then r.qty else 0.0)
  {
    assert (rs + [r])[..|rs|] == rs && (rs + [r])[|rs|] == r;
  }

  // The recent records are those at or after the cutoff ...
  lemma {:induction false} RecentExactly(rs: seq<Record>, cutoffMs: int)
    ensures forall r :: r in Recent(rs, cutoffMs) <==> r in rs && r.timestampMs >= cutoffMs
  {
    if rs != [] {
      RecentExactly(rs[..|rs| - 1], cutoffMs);
      assert rs == rs[..|rs| - 1] + [rs[|rs| - 1]];
    }
  }

  // ... in their order.
  lemma {:induction false} RecentConcat(rs: seq<Record>, more: seq<Record>, cutoffMs: int)
    ensures Recent(rs + more, cutoffMs) == Recent(rs, cutoffMs) + Recent(more, cutoffMs)
  {
    if more == [] {
      assert rs + more == rs && Recent(rs, cutoffMs) + [] == Recent(rs, cutoffMs);
    } else {
      RecentConcat(rs, more[..|more| - 1], cutoffMs);
      assert (rs + more)[..|rs + more| - 1] == rs + more[..|more| - 1];
    }
  }

  // int() drops the fraction: down for positive numbers, up for negative ones.
  lemma TruncateExactly(x: real)
    ensures var t := Truncate(x) as real;
      if x >= 0.0 then 0.0 <= t <= x < t + 1.0 else t - 1.0 < x <= t <= 0.0
  {
  }

  // ---- Bucketing ----

  // The records of bucket i, in order.
  function InBucket(rs: seq<Record>, i: int, size: real): seq<Record>
    requires size > 0.0
  {
    if rs == [] then []
    else
      var r := rs[|rs| - 1];
      InBucket(rs[..|rs| - 1], i, size) + (if Index(r.price, size) == i then [r] else [])
  }

  // buckets.setdefault(i, []).append(r)
  function AddTo(d: Buckets, i: int, r: Record): Buckets {
    Put(d, i, (if Get(d, i).Some? then Get(d, i).value else []) + [r])
  }

  function Bucketed(rs: seq<Record>, size: real): Buckets
    requires size > 0.0
  {
    if rs == [] then []
    else AddTo(Bucketed(rs[..|rs| - 1], size), Index(rs[|rs| - 1].price, size), rs[|rs| - 1])
  }

  // The buckets split the records: bucket i holds exactly those of index i, in order, and no bucket is empty.
  lemma {:induction false} BucketsPartitionRecords(rs: seq<Record>, size: real, i: int)
    requires size > 0.0
    ensures UniqueKeys(Bucketed(rs, size))
    ensures Get(Bucketed(rs, size), i) == if InBucket(rs, i, size) == [] then None else Some(InBucket(rs, i, size))
  {
    if rs != [] {
      var init, r := rs[..|rs| - 1], rs[|rs| - 1];
      var j := Index(r.price, size);
      var d := Bucketed(init, size);
      BucketsPartitionRecords(init, size, i);
      BucketsPartitionRecords(init, size, j);
      PutSpec(d, j, (if Get(d, j).Some? then Get(d, j).value else []) + [r]);
      assert InBucket(init, i, size) + [] == InBucket(init, i, size);
      assert InBucket(init, j, size) == [] ==> [] + [r] == InBucket(init, j, size) + [r];
    }
  }

  lemma FloorBounds(q: real, size: real)
    requires size > 0.0
    ensures Low(q.Floor, size) <= q * size < Low(q.Floor + 1, size)
  {
    var f := q.Floor as real;
    assert f <= q < f + 1.0;
    ProductSign(q - f, size);
    ProductSign(f + 1.0 - q, size);
    assert (q - f) * size == q * size - f * size;
    assert (f + 1.0 - q) * size == (f + 1.0) * size - q * size;
  }

  // The half-open intervals of the buckets are disjoint: only one index covers a price.
  lemma OneIntervalPerPrice(price: real, size: real, i: int)
    requires size > 0.0 && Low(i, size) <= price < Low(i + 1, size)
    ensures i == (price / size).Floor
  {
    QuotientAtLeast(price, size, i as real);
    QuotientBelow(price, size, (i + 1) as real);
  }

  // A record lies in the interval its own cluster reports, and in no other, exactly when its price is
  // not negative or a whole number of bucket sizes: truncation moves other negative prices up one bucket.
  lemma OwnIntervalExactly(price: real, size: real)
    requires size > 0.0
    ensures var i := Index(price, size);
      Low(i, size) <= price < Low(i + 1, size) <==> price >= 0.0 || price / size == (price / size).Floor as real
    ensures price >= 0.0 ==> forall j :: Low(j, size) <= price < Low(j + 1, size) <==> j == Index(price, size)
  {
    var q := price / size;
    assert q * size == price;
    FloorBounds(q, size);
    SignOfQuotient(price, size);
    if price < 0.0 && q != q.Floor as real {
      assert Index(price, size) != q.Floor;
      if Low(Index(price, size), size) <= price < Low(Index(price, size) + 1, size) {
        OneIntervalPerPrice(price, size, Index(price, size));
      }
    }
    forall j | Low(j, size) <= price < Low(j + 1, size) ensures j == q.Floor {
      OneIntervalPerPrice(price, size, j);
    }
  }

  // Price -0.5 goes into bucket 0, whose interval starts at 0.
  lemma NegativePriceIsMisplaced()
    ensures Index(-0.5, 1.0) == 0 && Low(0, 1.0) == 0.0 && !(Low(0, 1.0) <= -0.5 < Low(1, 1.0))
    ensures Low(-1, 1.0) <= -0.5 < Low(0, 1.0)
  {
    assert -0.5 / 1.0 == -0.5;
  }

  lemma SignOfQuotient(x: real, y: real)
    requires y > 0.0
    ensures x >= 0.0 <==> x / y >= 0.0
  {
    assert x / y * y == x;
    if x / y >= 0.0 { ProductSign(x / y, y); } else { ProductSign(-(x / y), y); }
  }

  // ---- Clusters ----

  function MakeCluster(i: int, rs: seq<Record>, size: real): Cluster {
    Cluster((Low(i, size) + Low(i + 1, size)) / 2.0, Low(i, size), Low(i + 1, size), |rs|,
            Qty(rs), Usd(rs), SideQty(rs, Sell), SideQty(rs, Buy))
  }

  function ClustersOf(d: Buckets, size: real, minCount: nat): seq<Cluster> {
    if d == [] then []
    else
      var (i, rs) := d[|d| - 1];
      ClustersOf(d[..|d| - 1], size, minCount) + (if |rs| < minCount then [] else [MakeCluster(i, rs, size)])
  }

  function Descending(): Cluster -> real {
    (c: Cluster) => -c.totalUsd
  }

  function ClusterUsd(cs: seq<Cluster>): real {
    if cs == [] then 0.0 else ClusterUsd(cs[..|cs| - 1]) + cs[|cs| - 1].totalUsd
  }

  function BucketUsd(d: Buckets): real {
    if d == [] then 0.0 else Usd(d[0].1) + BucketUsd(d[1..])
  }

  // A cluster reports the bounds of its interval, the number of its records, and their totals; sold
  // positions were long, bought ones short.
  lemma ClusterFields(i: int, rs: seq<Record>, size: real)
    ensures
      var c := MakeCluster(i, rs, size);
      && c.bucketLow == i as real * size && c.bucketHigh == (i + 1) as real * size
      && c.priceMid - c.bucketLow == c.bucketHigh - c.priceMid
      && c.count == |rs| && c.totalQty == Qty(rs) && c.totalUsd == Usd(rs)
      && c.longQty == SideQty(rs, Sell) && c.shortQty == SideQty(rs, Buy)
  {
  }

  // ---- Conservation ----

  lemma {:induction false} AddToUsd(d: Buckets, i: int, r: Record)
    ensures BucketUsd(AddTo(d, i, r)) == BucketUsd(d) + r.qty * r.price
  {
    if d == [] {
      assert [] + [r] == [r] && [r][..0] == [];
      assert Usd([r]) == Usd([r][..0]) + r.qty * r.price;
      assert AddTo(d, i, r) == [(i, [r])] && [(i, [r])][1..] == [];
    } else if d[0].0 == i {
      assert (d[0].1 + [r])[..|d[0].1|] == d[0].1;
      assert AddTo(d, i, r)[1..] == d[1..];
    } else {
      AddToUsd(d[1..], i, r);
      assert AddTo(d, i, r)[1..] == AddTo(d[1..], i, r);
    }
  }

  lemma OneMoreRecord(d: Buckets, rs: seq<Record>, i: int, r: Record)
    requires BucketUsd(d) == Usd(rs)
    ensures BucketUsd(AddTo(d, i, r)) == Usd(rs + [r])
  {
    AddToUsd(d, i, r);
    SumsAppend(rs, r, Buy);
  }

  lemma {:induction false} BucketingConservesUsd(rs: seq<Record>, size: real)
    requires size > 0.0
    ensures BucketUsd(Bucketed(rs, size)) == Usd(rs)
  {
    if rs != [] {
      var init, r := rs[..|rs| - 1], rs[|rs| - 1];
      BucketingConservesUsd(init, size);
      assert rs == init + [r];
      OneMoreRecord(Bucketed(init, size), init, Index(r.price, size), r);
    }
  }

  lemma {:induction false} BucketUsdAppend(d: Buckets, e: (int, seq<Record>))
    ensures BucketUsd(d + [e]) == BucketUsd(d) + Usd(e.1)
  {
    if d == [] {
      assert d + [e] == [e] && [e][1..] == [];
    } else {
      BucketUsdAppend(d[1..], e);
      assert (d + [e])[1..] == d[1..] + [e];
    }
  }

  lemma ClusterUsdAppend(cs: seq<Cluster>, c: Cluster)
    ensures ClusterUsd(cs + [c]) == ClusterUsd(cs) + c.totalUsd
  {
    assert (cs + [c])[..|cs|] == cs;
  }

  lemma NextCluster(d: Buckets, e: (int, seq<Record>), size: real, minCount: nat)
    ensures ClusterUsd(ClustersOf(d + [e], size, minCount))
         == ClusterUsd(ClustersOf(d, size, minCount)) + (if |e.1| >= minCount then Usd(e.1) else 0.0)
  {
    var cs, c := ClustersOf(d, size, minCount), MakeCluster(e.0, e.1, size);
    assert (d + [e])[..|d|] == d;
    ClusterUsdAppend(cs, c);
    assert cs + [] == cs;
  }

  lemma {:induction false} ClustersHoldTheBuckets(d: Buckets, size: real, minCount: nat)
    requires forall k | 0 <= k < |d| :: Usd(d[k].1) >= 0.0 || |d[k].1| >= minCount
    ensures ClusterUsd(ClustersOf(d, size, minCount)) <= BucketUsd(d)
    ensures (forall k | 0 <= k < |d| :: |d[k].1| >= minCount) ==>
      ClusterUsd(ClustersOf(d, size, minCount)) == BucketUsd(d)
  {
    if d != [] {
      var init, e := d[..|d| - 1], d[|d| - 1];
      assert forall k | 0 <= k < |init| :: init[k] == d[k];
      ClustersHoldTheBuckets(init, size, minCount);
      assert d == init + [e];
      BucketUsdAppend(init, e);
      NextCluster(init, e, size, minCount);
    }
  }

  lemma {:induction false} InsertUsd(cs: seq<Cluster>, c: Cluster)
    ensures ClusterUsd(Insert(cs, c, Descending())) == ClusterUsd(cs) + c.totalUsd
  {
    var key := Descending();
    if cs == [] || key(cs[|cs| - 1]) <= key(c) {
      assert (cs + [c])[..|cs|] == cs;
    } else {
      var init, last := cs[..|cs| - 1], cs[|cs| - 1];
      InsertUsd(init, c);
      assert (Insert(init, c, key) + [last])[..|Insert(init, c, key)|] == Insert(init, c, key);
    }
  }

  lemma {:induction false} SortUsd(cs: seq<Cluster>)
    ensures ClusterUsd(Sort(cs, Descending())) == ClusterUsd(cs)
  {
    if cs != [] {
      SortUsd(cs[..|cs| - 1]);
      InsertUsd(Sort(cs[..|cs| - 1], Descending()), cs[|cs| - 1]);
    }
  }

  lemma {:induction false} SidesAddUp(rs: seq<Record>)
    requires forall i | 0 <= i < |rs| :: !rs[i].side.OtherSide?
    ensures SideUsd(rs, Sell) + SideUsd(rs, Buy) == Usd(rs)
  {
    if rs != [] { SidesAddUp(rs[..|rs| - 1]); }
  }

  lemma {:induction false} UsdNonNegative(rs: seq<Record>)
    requires forall i | 0 <= i < |rs| :: rs[i].qty >= 0.0 && rs[i].price >= 0.0
    ensures Usd(rs) >= 0.0
  {
    if rs != [] {
      UsdNonNegative(rs[..|rs| - 1]);
      ProductSign(rs[|rs| - 1].qty, rs[|rs| - 1].price);
    }
  }

  lemma {:induction false} InBucketMembers(rs: seq<Record>, i: int, size: real)
    requires size > 0.0
    ensures forall r | r in InBucket(rs, i, size) :: r in rs && Index(r.price, size) == i
  {
    if rs != [] { InBucketMembers(rs[..|rs| - 1], i, size); }
  }

  lemma BucketUsdNonNegative(rs: seq<Record>, i: int, size: real)
    requires size > 0.0 && forall k | 0 <= k < |rs| :: rs[k].qty >= 0.0 && rs[k].price >= 0.0
    ensures Usd(InBucket(rs, i, size)) >= 0.0
  {
    var bucket := InBucket(rs, i, size);
    InBucketMembers(rs, i, size);
    forall k | 0 <= k < |bucket| ensures bucket[k].qty >= 0.0 && bucket[k].price >= 0.0 {
      assert bucket[k] in rs;
    }
    UsdNonNegative(bucket);
  }

  function Clusters(rs: seq<Record>, size: real, minCount: nat): seq<Cluster>
    requires size > 0.0
  {
    Sort(ClustersOf(Bucketed(rs, size), size, minCount), Descending())
  }

  lemma BucketEntries(rs: seq<Record>, size: real, k: nat)
    requires size > 0.0 && k < |Bucketed(rs, size)|
    ensures var (i, recs) := Bucketed(rs, size)[k]; recs == InBucket(rs, i, size) != []
  {
    var d := Bucketed(rs, size);
    BucketsPartitionRecords(rs, size, d[k].0);
    GetHasKey(d, d[k].0);
  }

  // With every bucket reported, the clusters hold the whole notional; a higher minimum never
  // reports more than it, as long as quantities and prices are not negative.
  lemma ClusterTotals(rs: seq<Record>, size: real, minCount: nat)
    requires size > 0.0
    requires minCount <= 1 || forall i | 0 <= i < |rs| :: rs[i].qty >= 0.0 && rs[i].price >= 0.0
    ensures ClusterUsd(Clusters(rs, size, minCount)) <= Usd(rs)
    ensures minCount <= 1 ==> ClusterUsd(Clusters(rs, size, minCount)) == Usd(rs)
    ensures Ordered(Clusters(rs, size, minCount), Descending())
  {
    var d := Bucketed(rs, size);
    forall k | 0 <= k < |d| ensures |d[k].1| >= 1 && (minCount > 1 ==> Usd(d[k].1) >= 0.0) {
      BucketEntries(rs, size, k);
      if minCount > 1 { BucketUsdNonNegative(rs, d[k].0, size); }
    }
    BucketingConservesUsd(rs, size);
    ClustersHoldTheBuckets(d, size, minCount);
    SortUsd(ClustersOf(d, size, minCount));
    SortIsOrdered(ClustersOf(d, size, minCount), Descending());
  }

  // Each reported cluster is a bucket with enough records, summed over exactly its records; and each
  // such bucket is reported.
  lemma ReportedClusters(rs: seq<Record>, size: real, minCount: nat, c: Cluster)
    requires size > 0.0
    ensures c in Clusters(rs, size, minCount) <==>
      exists i :: InBucket(rs, i, size) != [] && |InBucket(rs, i, size)| >= minCount
        && c == MakeCluster(i, InBucket(rs, i, size), size)
  {
    var d := Bucketed(rs, size);
    var cs := ClustersOf(d, size, minCount);
    SortIsAPermutation(cs, Descending());
    assert c in Clusters(rs, size, minCount) <==> c in multiset(Clusters(rs, size, minCount));
    assert c in cs <==> c in multiset(cs);
    ClustersOfMembers(d, size, minCount, c);
    if c in cs {
      var k :| 0 <= k < |d| && |d[k].1| >= minCount && c == MakeCluster(d[k].0, d[k].1, size);
      BucketEntries(rs, size, k);
    }
    forall i | InBucket(rs, i, size) != [] && |InBucket(rs, i, size)| >= minCount
      && c == MakeCluster(i, InBucket(rs, i, size), size)
      ensures c in cs
    {
      BucketsPartitionRecords(rs, size, i);
      GetHasKey(d, i);
      var k :| 0 <= k < |d| && d[k] == (i, InBucket(rs, i, size));
    }
  }

  lemma {:induction false} ClustersOfMembers(d: Buckets, size: real, minCount: nat, c: Cluster)
    ensures c in ClustersOf(d, size, minCount) <==>
      exists k | 0 <= k < |d| :: |d[k].1| >= minCount && c == MakeCluster(d[k].0, d[k].1, size)
  {
    if d != [] {
      var init := d[..|d| - 1];
      ClustersOfMembers(init, size, minCount, c);
      assert forall k | 0 <= k < |init| :: init[k] == d[k];
    }
  }

  // Clusters and totals agree: with a minimum of one record and only buys and sells, the clusters
  // add up to the long plus the short notional, and they come out largest first.
  lemma ClustersMatchTotals(rs: seq<Record>, size: real)
    requires size > 0.0 && forall i | 0 <= i < |rs| :: !rs[i].side.OtherSide?
    ensures ClusterUsd(Clusters(rs, size, 1)) == SideUsd(rs, Sell) + SideUsd(rs, Buy)
    ensures var cs := Clusters(rs, size, 1); forall i, j | 0 <= i < j < |cs| :: cs[i].totalUsd >= cs[j].totalUsd
  {
    ClusterTotals(rs, size, 1);
    SidesAddUp(rs);
    var key, cs := Descending(), Clusters(rs, size, 1);
    forall i, j | 0 <= i < j < |cs| ensures cs[i].totalUsd >= cs[j].totalUsd {
      assert key(cs[i]) <= key(cs[j]);
    }
  }

  // ---- The detector ----

  class LiquidationClusterDetector {
    const windowS: real
    const bucketFraction: real
    const minCount: nat
    var records: seq<Record>

    constructor (windowS: real, bucketPct: real, minCount: nat)
      ensures this.windowS == windowS && bucketFraction == bucketPct / 100.0 && this.minCount == minCount
      ensures records == []
    {
      this.windowS, bucketFraction, this.minCount, records := windowS, bucketPct / 100.0, minCount, [];
    }

    // The records of the last windowS seconds.
    function Window(nowMs: int): (recent: seq<Record>)
      reads this
      ensures forall r :: r in recent <==> r in records && r.timestampMs >= nowMs - Truncate(windowS * 1000.0)
    {
      RecentExactly(records, nowMs - Truncate(windowS * 1000.0));
      Recent(records, nowMs - Truncate(windowS * 1000.0))
    }

    method OnLiquidation(r: Record)
      modifies this
      ensures records == Push(old(records), r, 500)
    {
      records := Push(records, r, 500);
    }

    method ComputeClusters(currentPrice: real, nowMs: int) returns (clusters: seq<Cluster>)
      ensures var size := currentPrice * bucketFraction;
        clusters == if currentPrice <= 0.0 || size <= 0.0 then [] else Clusters(Window(nowMs), size, minCount)
    {
      if currentPrice <= 0.0 {
        return [];
      }
      var recent := Window(nowMs);
      var bucketSize := currentPrice * bucketFraction;
      if recent == [] {
        assert bucketSize > 0.0 ==> Bucketed(recent, bucketSize) == [];
        return [];
      }
      if bucketSize <= 0.0 {
        return [];
      }
      var buckets: Buckets := [];
      for k := 0 to |recent|
        invariant buckets == Bucketed(recent[..k], bucketSize)
      {
        assert recent[..k + 1][..k] == recent[..k];
        var i := Index(recent[k].price, bucketSize);
        buckets := AddTo(buckets, i, recent[k]);
      }
      assert recent[..|recent|] == recent;
      var unsorted: seq<Cluster> := [];
      for k := 0 to |buckets|
        invariant unsorted == ClustersOf(buckets[..k], bucketSize, minCount)
      {
        assert buckets[..k + 1][..k] == buckets[..k];
        var (i, recs) := buckets[k];
        if |recs| < minCount {
          continue;
        }
        unsorted := unsorted + [MakeCluster(i, recs, bucketSize)];
      }
      assert buckets[..|buckets|] == buckets;
      clusters := Sort(unsorted, Descending());
    }

    method ComputeClusterTotals(nowMs: int) returns (longUsd: real, shortUsd: real)
      ensures longUsd == SideUsd(Window(nowMs), Sell) && shortUsd == SideUsd(Window(nowMs), Buy)
      ensures (forall i | 0 <= i < |Window(nowMs)| :: !Window(nowMs)[i].side.OtherSide?) ==>
        longUsd + shortUsd == Usd(Window(nowMs))
    {
      var recent := Window(nowMs);
      longUsd, shortUsd := SideUsd(recent, Sell), SideUsd(recent, Buy);
      if forall i | 0 <= i < |recent| :: !recent[i].side.OtherSide? {
        SidesAddUp(recent);
      }
    }
  }
}
