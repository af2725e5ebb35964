// Merging depth deltas into a price-sorted book.
//
// Prices and quantities are texts; num is Python's float() on them.  The book levels of one side
// go into a dict keyed by the price text, the deltas are applied to it in order, and the entries
// come out sorted by price, stably.
module OrderBook {
  import opened Wrappers
  import opened StableSorting
  import opened OrderedDict

  type Numeral = string -> real
  type Level = (string, string)

  datatype Book = Book(lastUpdateId: int, bids: seq<Level>, asks: seq<Level>, ts: int)

  // Bids sort by descending price, asks by ascending.
  function SortKey(num: Numeral, descending: bool): Level -> real {
    (l: Level) => if descending then -num(l.0) else num(l.0)
  }

  function ApplyOne(num: Numeral, d: seq<Level>, delta: Level): seq<Level> {
    if num(delta.1) == 0.0 then Pop(d, delta.0) else Put(d, delta.0, delta.1)
  }

  function ApplyAll(num: Numeral, d: seq<Level>, deltas: seq<Level>): seq<Level> {
    if deltas == [] then d
    else ApplyOne(num, ApplyAll(num, d, deltas[..|deltas| - 1]), deltas[|deltas| - 1])
  }

  function MergeSide(num: Numeral, descending: bool, levels: seq<Level>, deltas: seq<Level>): seq<Level> {
    Sort(ApplyAll(num, FromPairs(levels), deltas), SortKey(num, descending))
  }

  function Merge(num: Numeral, book: Book, bidDeltas: seq<Level>, askDeltas: seq<Level>, lastUpdateId: int,
      ts: int): Book {
    Book(lastUpdateId, MergeSide(num, true, book.bids, bidDeltas), MergeSide(num, false, book.asks, askDeltas), ts)
  }

  // ---- Merging is compositional ----

  // A delta acts inside the class of its price's value and leaves every other class alone.
  lemma {:induction false} PutActsOnItsClass(d: seq<Level>, p: string, q: string, num: Numeral, descending: bool,
      v: real)
    ensures var key := SortKey(num, descending);
      At(Put(d, p, q), key, v) == if key((p, q)) == v then Put(At(d, key, v), p, q) else At(d, key, v)
  {
    var key := SortKey(num, descending);
    if d == [] {
      AtAppend([], (p, q), key, v);
      assert [] + [(p, q)] == [(p, q)];
    } else {
      var x, rest := d[0], d[1..];
      assert d == [x] + rest;
      PutActsOnItsClass(rest, p, q, num, descending, v);
      AtPrepend(x, rest, key, v);
      AtPrepend((p, q), rest, key, v);
      AtPrepend(x, Put(rest, p, q), key, v);
      PutPrepend(x, At(rest, key, v), p, q);
      PutPrepend(x, rest, p, q);
      if key(x) != v {
        assert [] + At(rest, key, v) == At(rest, key, v);
      }
    }
  }

  lemma {:induction false} PopActsOnItsClass(d: seq<Level>, p: string, q: string, num: Numeral, descending: bool,
      v: real)
    ensures var key := SortKey(num, descending);
      At(Pop(d, p), key, v) == if key((p, q)) == v then Pop(At(d, key, v), p) else At(d, key, v)
  {
    var key := SortKey(num, descending);
    if d != [] {
      var x, rest := d[0], d[1..];
      assert d == [x] + rest;
      PopActsOnItsClass(rest, p, q, num, descending, v);
      AtPrepend(x, rest, key, v);
      AtPrepend(x, Pop(rest, p), key, v);
      PutPrepend(x, At(rest, key, v), p, q);
      PutPrepend(x, rest, p, q);
      if key(x) != v {
        assert [] + At(rest, key, v) == At(rest, key, v);
        assert [] + At(Pop(rest, p), key, v) == At(Pop(rest, p), key, v);
      }
    }
  }

  lemma {:induction false} AtPrepend(x: Level, s: seq<Level>, key: Level -> real, v: real)
    ensures At([x] + s, key, v) == (if key(x) == v then [x] else []) + At(s, key, v)
  {
    if s == [] {
      assert [x] + s == [] + [x];
      AtAppend([], x, key, v);
    } else {
      var init, last := s[..|s| - 1], s[|s| - 1];
      AtPrepend(x, init, key, v);
      assert [x] + s == ([x] + init) + [last];
      AtAppend([x] + init, last, key, v);
    }
  }

  lemma {:induction false} SameClassesStayTheSame(num: Numeral, descending: bool, d: seq<Level>, e: seq<Level>,
      deltas: seq<Level>, v: real)
    requires At(d, SortKey(num, descending), v) == At(e, SortKey(num, descending), v)
    ensures At(ApplyAll(num, d, deltas), SortKey(num, descending), v)
      == At(ApplyAll(num, e, deltas), SortKey(num, descending), v)
  {
    if deltas != [] {
      var init, last := deltas[..|deltas| - 1], deltas[|deltas| - 1];
      SameClassesStayTheSame(num, descending, d, e, init, v);
      PutActsOnItsClass(ApplyAll(num, d, init), last.0, last.1, num, descending, v);
      PutActsOnItsClass(ApplyAll(num, e, init), last.0, last.1, num, descending, v);
      PopActsOnItsClass(ApplyAll(num, d, init), last.0, last.1, num, descending, v);
      PopActsOnItsClass(ApplyAll(num, e, init), last.0, last.1, num, descending, v);
    }
  }

  lemma {:induction false} ApplyAllConcat(num: Numeral, d: seq<Level>, first: seq<Level>, second: seq<Level>)
    ensures ApplyAll(num, d, first + second) == ApplyAll(num, ApplyAll(num, d, first), second)
  {
    if second == [] {
      assert first + second == first;
    } else {
      var init, last := second[..|second| - 1], second[|second| - 1];
      ApplyAllConcat(num, d, first, init);
      assert (first + second)[..|first + second| - 1] == first + init;
    }
  }

  lemma {:induction false} ApplyAllIsUnique(num: Numeral, d: seq<Level>, deltas: seq<Level>)
    requires UniqueKeys(d)
    ensures UniqueKeys(ApplyAll(num, d, deltas))
  {
    if deltas != [] {
      ApplyAllIsUnique(num, d, deltas[..|deltas| - 1]);
      PutSpec(ApplyAll(num, d, deltas[..|deltas| - 1]), deltas[|deltas| - 1].0, deltas[|deltas| - 1].1);
      PopSpec(ApplyAll(num, d, deltas[..|deltas| - 1]), deltas[|deltas| - 1].0);
    }
  }

  lemma {:induction false} InsertIsUnique(s: seq<Level>, x: Level, key: Level -> real)
    requires UniqueKeys(s) && !HasKey(s, x.0)
    ensures UniqueKeys(Insert(s, x, key))
    ensures forall i | 0 <= i < |Insert(s, x, key)| :: Insert(s, x, key)[i] == x || Insert(s, x, key)[i] in s
  {
    if s != [] && key(s[|s| - 1]) > key(x) {
      var init, last := s[..|s| - 1], s[|s| - 1];
      assert forall i | 0 <= i < |init| :: init[i].0 == s[i].0;
      assert last.0 != x.0;
      InsertIsUnique(init, x, key);
    }
  }

  lemma {:induction false} SortIsUnique(s: seq<Level>, key: Level -> real)
    requires UniqueKeys(s)
    ensures UniqueKeys(Sort(s, key))
    ensures forall l | l in Sort(s, key) :: l in s
  {
    if s != [] {
      var init, last := s[..|s| - 1], s[|s| - 1];
      SortIsUnique(init, key);
      var sorted := Sort(init, key);
      forall i | 0 <= i < |sorted| ensures sorted[i].0 != last.0 {
        assert sorted[i] in sorted;
        var j :| 0 <= j < |init| && init[j] == sorted[i];
        assert s[j].0 != s[|s| - 1].0;
      }
      InsertIsUnique(sorted, last, key);
    }
  }

  lemma MergedLevelsAreADict(num: Numeral, descending: bool, levels: seq<Level>, deltas: seq<Level>)
    ensures UniqueKeys(MergeSide(num, descending, levels, deltas))
    ensures FromPairs(MergeSide(num, descending, levels, deltas)) == MergeSide(num, descending, levels, deltas)
  {
    FromPairsIsUnique(levels);
    ApplyAllIsUnique(num, FromPairs(levels), deltas);
    SortIsUnique(ApplyAll(num, FromPairs(levels), deltas), SortKey(num, descending));
    UniquePairsAreADict(MergeSide(num, descending, levels, deltas));
  }

  // Merging two deltas one after the other gives exactly the list that merging them at once gives,
  // for all texts: prices that are written differently but equal keep their relative order both ways.
  lemma MergingIsCompositional(num: Numeral, descending: bool, levels: seq<Level>, first: seq<Level>,
      second: seq<Level>)
    ensures MergeSide(num, descending, MergeSide(num, descending, levels, first), second)
         == MergeSide(num, descending, levels, first + second)
  {
    var key, d := SortKey(num, descending), ApplyAll(num, FromPairs(levels), first);
    MergedLevelsAreADict(num, descending, levels, first);
    ApplyAllConcat(num, FromPairs(levels), first, second);
    forall v ensures At(ApplyAll(num, Sort(d, key), second), key, v) == At(ApplyAll(num, d, second), key, v) {
      SortIsStable(d, key, v);
      SameClassesStayTheSame(num, descending, Sort(d, key), d, second, v);
    }
    SameClassesSortAlike(ApplyAll(num, Sort(d, key), second), ApplyAll(num, d, second), key);
  }

  // ---- The book refines a price-to-quantity map ----

  function MapOf(levels: seq<Level>): map<string, string> {
    if levels == [] then map[] else MapOf(levels[..|levels| - 1])[levels[|levels| - 1].0 := levels[|levels| - 1].1]
  }

  function UpdateMap(num: Numeral, m: map<string, string>, deltas: seq<Level>): map<string, string> {
    if deltas == [] then m
    else
      var before, last := UpdateMap(num, m, deltas[..|deltas| - 1]), deltas[|deltas| - 1];
      if num(last.1) == 0.0 then before - {last.0} else before[last.0 := last.1]
  }

  ghost predicate Represents(d: seq<Level>, m: map<string, string>) {
    UniqueKeys(d) && forall p :: Get(d, p) == if p in m then Some(m[p]) else None
  }

  lemma {:induction false} DictRepresentsLevels(levels: seq<Level>)
    ensures Represents(FromPairs(levels), MapOf(levels))
  {
    if levels != [] {
      DictRepresentsLevels(levels[..|levels| - 1]);
      PutSpec(FromPairs(levels[..|levels| - 1]), levels[|levels| - 1].0, levels[|levels| - 1].1);
    }
  }

  lemma {:induction false} DeltasRepresentUpdates(num: Numeral, d: seq<Level>, m: map<string, string>,
      deltas: seq<Level>)
    requires Represents(d, m)
    ensures Represents(ApplyAll(num, d, deltas), UpdateMap(num, m, deltas))
  {
    if deltas != [] {
      var init, last := deltas[..|deltas| - 1], deltas[|deltas| - 1];
      DeltasRepresentUpdates(num, d, m, init);
      PutSpec(ApplyAll(num, d, init), last.0, last.1);
      PopSpec(ApplyAll(num, d, init), last.0);
    }
  }

  lemma SortRepresentsTheSame(d: seq<Level>, m: map<string, string>, key: Level -> real)
    requires Represents(d, m)
    ensures Represents(Sort(d, key), m)
  {
    SortIsUnique(d, key);
    SortIsAPermutation(d, key);
    var s := Sort(d, key);
    assert forall l :: l in s <==> l in multiset(s);
    assert forall l :: l in d <==> l in multiset(d);
    forall p ensures Get(s, p) == Get(d, p) {
      GetHasKey(s, p);
      GetHasKey(d, p);
      if Get(d, p).Some? {
        var i :| 0 <= i < |s| && s[i] == (p, Get(d, p).value);
      } else {
        forall i | 0 <= i < |s| ensures s[i].0 != p {
          assert s[i] in s;
          var j :| 0 <= j < |d| && d[j] == s[i];
        }
      }
    }
  }

  // The merged side holds exactly the updated map ...
  lemma MergeRefinesMap(num: Numeral, descending: bool, levels: seq<Level>, deltas: seq<Level>)
    ensures Represents(MergeSide(num, descending, levels, deltas), UpdateMap(num, MapOf(levels), deltas))
  {
    DictRepresentsLevels(levels);
    DeltasRepresentUpdates(num, FromPairs(levels), MapOf(levels), deltas);
    SortRepresentsTheSame(ApplyAll(num, FromPairs(levels), deltas), UpdateMap(num, MapOf(levels), deltas),
      SortKey(num, descending));
  }

  // ... in which the last delta of a price decides, and a price without deltas keeps its level.
  lemma {:induction false} LastDeltaWins(num: Numeral, m: map<string, string>, deltas: seq<Level>, i: nat)
    requires i < |deltas| && forall j | i < j < |deltas| :: deltas[j].0 != deltas[i].0
    ensures var (p, q) := deltas[i];
      p in UpdateMap(num, m, deltas) <==> num(q) != 0.0
    ensures num(deltas[i].1) != 0.0 ==> UpdateMap(num, m, deltas)[deltas[i].0] == deltas[i].1
  {
    if i < |deltas| - 1 {
      assert deltas[..|deltas| - 1][i] == deltas[i];
      LastDeltaWins(num, m, deltas[..|deltas| - 1], i);
    }
  }

  lemma {:induction false} UntouchedPriceKeepsItsLevel(num: Numeral, m: map<string, string>, deltas: seq<Level>,
      p: string)
    requires p !in Prices(deltas)
    ensures p in UpdateMap(num, m, deltas) <==> p in m
    ensures p in m ==> UpdateMap(num, m, deltas)[p] == m[p]
  {
    if deltas != [] {
      var init := deltas[..|deltas| - 1];
      assert deltas[|deltas| - 1].0 in Prices(deltas);
      assert p !in Prices(init) by {
        assert forall i | 0 <= i < |init| :: init[i].0 == deltas[i].0 && deltas[i].0 in Prices(deltas);
      }
      UntouchedPriceKeepsItsLevel(num, m, init, p);
    }
  }

  // ---- Order, uniqueness of prices, zero-freedom ----

  // Distinct texts have distinct values.
  ghost predicate Canonical(num: Numeral, prices: set<string>) {
    forall p, q | p in prices && q in prices && p != q :: num(p) != num(q)
  }

  function Prices(levels: seq<Level>): set<string> {
    set i | 0 <= i < |levels| :: levels[i].0
  }

  // Bids never rise and asks never fall from one level to the next; with canonical texts they
  // strictly fall and strictly rise.
  lemma MergedSideIsSorted(num: Numeral, descending: bool, levels: seq<Level>, deltas: seq<Level>)
    ensures Ordered(MergeSide(num, descending, levels, deltas), SortKey(num, descending))
    ensures Canonical(num, Prices(levels) + Prices(deltas)) ==>
      StrictlyOrdered(MergeSide(num, descending, levels, deltas), SortKey(num, descending))
  {
    var key, out := SortKey(num, descending), MergeSide(num, descending, levels, deltas);
    SortIsOrdered(ApplyAll(num, FromPairs(levels), deltas), key);
    MergedLevelsAreADict(num, descending, levels, deltas);
    if Canonical(num, Prices(levels) + Prices(deltas)) {
      MergeAddsNoPrice(num, descending, levels, deltas);
      forall i, j | 0 <= i < j < |out| ensures key(out[i]) < key(out[j]) {
        assert out[i].0 in Prices(out) && out[j].0 in Prices(out);
        assert key(out[i]) <= key(out[j]);
      }
    }
  }

  lemma {:induction false} UpdateAddsNoPrice(num: Numeral, m: map<string, string>, deltas: seq<Level>)
    ensures UpdateMap(num, m, deltas).Keys <= m.Keys + Prices(deltas)
  {
    if deltas != [] {
      var init, last := deltas[..|deltas| - 1], deltas[|deltas| - 1];
      UpdateAddsNoPrice(num, m, init);
      assert deltas[|deltas| - 1].0 in Prices(deltas);
      forall p | p in Prices(init) ensures p in Prices(deltas) {
        var i :| 0 <= i < |init| && init[i].0 == p;
        assert deltas[i].0 == p;
      }
    }
  }

  lemma {:induction false} MapOfPrices(levels: seq<Level>)
    ensures MapOf(levels).Keys == Prices(levels)
  {
    if levels != [] {
      var init := levels[..|levels| - 1];
      MapOfPrices(init);
      assert levels == init + [levels[|levels| - 1]];
      assert forall p :: p in Prices(levels) <==> p in Prices(init) || p == levels[|levels| - 1].0;
    }
  }

  lemma MergeAddsNoPrice(num: Numeral, descending: bool, levels: seq<Level>, deltas: seq<Level>)
    ensures Prices(MergeSide(num, descending, levels, deltas)) <= Prices(levels) + Prices(deltas)
  {
    var out := MergeSide(num, descending, levels, deltas);
    MergeRefinesMap(num, descending, levels, deltas);
    UpdateAddsNoPrice(num, MapOf(levels), deltas);
    MapOfPrices(levels);
    forall p | p in Prices(out) ensures p in Prices(levels) + Prices(deltas) {
      GetHasKey(out, p);
    }
  }

  ghost predicate ZeroFree(num: Numeral, levels: seq<Level>) {
    forall i | 0 <= i < |levels| :: num(levels[i].1) != 0.0
  }

  lemma {:induction false} UpdateStaysZeroFree(num: Numeral, m: map<string, string>, deltas: seq<Level>)
    requires forall p | p in m :: num(m[p]) != 0.0
    ensures forall p | p in UpdateMap(num, m, deltas) :: num(UpdateMap(num, m, deltas)[p]) != 0.0
  {
    if deltas != [] { UpdateStaysZeroFree(num, m, deltas[..|deltas| - 1]); }
  }

  lemma {:induction false} MapOfZeroFree(num: Numeral, levels: seq<Level>)
    requires ZeroFree(num, levels)
    ensures forall p | p in MapOf(levels) :: num(MapOf(levels)[p]) != 0.0
  {
    if levels != [] { MapOfZeroFree(num, levels[..|levels| - 1]); }
  }

  // A book without zero levels never gets one.
  lemma MergeStaysZeroFree(num: Numeral, descending: bool, levels: seq<Level>, deltas: seq<Level>)
    requires ZeroFree(num, levels)
    ensures ZeroFree(num, MergeSide(num, descending, levels, deltas))
  {
    var out := MergeSide(num, descending, levels, deltas);
    MergeRefinesMap(num, descending, levels, deltas);
    MapOfZeroFree(num, levels);
    UpdateStaysZeroFree(num, MapOf(levels), deltas);
    forall i | 0 <= i < |out| ensures num(out[i].1) != 0.0 {
      GetHasKey(out, out[i].0);
    }
  }

  // ---- The merged book ----

  predicate Entry(m: map<string, string>, p: string, q: string) {
    p in m && m[p] == q
  }

  // A book that lists a price twice counts its last level, as the dict built from it does.
  lemma {:induction false} LastLevelCounts(levels: seq<Level>, i: nat)
    requires i < |levels| && forall j | i < j < |levels| :: levels[j].0 != levels[i].0
    ensures Entry(MapOf(levels), levels[i].0, levels[i].1)
    ensures MapOf(levels).Keys == Prices(levels)
  {
    MapOfPrices(levels);
    if i < |levels| - 1 {
      assert levels[..|levels| - 1][i] == levels[i];
      LastLevelCounts(levels[..|levels| - 1], i);
    }
  }

  lemma MergeHoldsExactly(num: Numeral, descending: bool, levels: seq<Level>, deltas: seq<Level>, p: string, q: string)
    ensures (p, q) in MergeSide(num, descending, levels, deltas) <==> Entry(UpdateMap(num, MapOf(levels), deltas), p, q)
  {
    var out := MergeSide(num, descending, levels, deltas);
    MergeRefinesMap(num, descending, levels, deltas);
    GetHasKey(out, p);
    if (p, q) in out {
      var i :| 0 <= i < |out| && out[i] == (p, q);
    }
  }

  lemma SideOrder(num: Numeral, descending: bool, levels: seq<Level>, deltas: seq<Level>, i: nat, j: nat)
    requires i < j < |MergeSide(num, descending, levels, deltas)|
    ensures
      var out, canonical := MergeSide(num, descending, levels, deltas), Canonical(num, Prices(levels) + Prices(deltas));
      var p, q := num(out[i].0), num(out[j].0);
      if descending then p >= q && (canonical ==> p > q) else p <= q && (canonical ==> p < q)
  {
    MergedSideIsSorted(num, descending, levels, deltas);
    var key, out := SortKey(num, descending), MergeSide(num, descending, levels, deltas);
    assert key(out[i]) <= key(out[j]);
  }

  lemma MergedBook(num: Numeral, book: Book, bidDeltas: seq<Level>, askDeltas: seq<Level>, lastUpdateId: int, ts: int)
    ensures
      var merged := Merge(num, book, bidDeltas, askDeltas, lastUpdateId, ts);
      && (forall i, j | 0 <= i < j < |merged.bids| :: num(merged.bids[i].0) >= num(merged.bids[j].0))
      && (forall i, j | 0 <= i < j < |merged.asks| :: num(merged.asks[i].0) <= num(merged.asks[j].0))
      && (Canonical(num, Prices(book.bids) + Prices(bidDeltas)) ==>
            forall i, j | 0 <= i < j < |merged.bids| :: num(merged.bids[i].0) > num(merged.bids[j].0))
      && (Canonical(num, Prices(book.asks) + Prices(askDeltas)) ==>
            forall i, j | 0 <= i < j < |merged.asks| :: num(merged.asks[i].0) < num(merged.asks[j].0))
      && (forall p, q :: (p, q) in merged.bids <==> Entry(UpdateMap(num, MapOf(book.bids), bidDeltas), p, q))
      && (forall p, q :: (p, q) in merged.asks <==> Entry(UpdateMap(num, MapOf(book.asks), askDeltas), p, q))
  {
    var bids, asks := MergeSide(num, true, book.bids, bidDeltas), MergeSide(num, false, book.asks, askDeltas);
    forall i, j | 0 <= i < j < |bids|
      ensures num(bids[i].0) >= num(bids[j].0)
      ensures Canonical(num, Prices(book.bids) + Prices(bidDeltas)) ==> num(bids[i].0) > num(bids[j].0)
    {
      SideOrder(num, true, book.bids, bidDeltas, i, j);
    }
    forall i, j | 0 <= i < j < |asks|
      ensures num(asks[i].0) <= num(asks[j].0)
      ensures Canonical(num, Prices(book.asks) + Prices(askDeltas)) ==> num(asks[i].0) < num(asks[j].0)
    {
      SideOrder(num, false, book.asks, askDeltas, i, j);
    }
    forall p, q ensures (p, q) in bids <==> Entry(UpdateMap(num, MapOf(book.bids), bidDeltas), p, q) {
      MergeHoldsExactly(num, true, book.bids, bidDeltas, p, q);
    }
    forall p, q ensures (p, q) in asks <==> Entry(UpdateMap(num, MapOf(book.asks), askDeltas), p, q) {
      MergeHoldsExactly(num, false, book.asks, askDeltas, p, q);
    }
  }

  // ---- The handler ----

  // One delta merged into a book, as the normalizer does it.
  method ApplyDelta(num: Numeral, book: Book, bidDeltas: seq<Level>, askDeltas: seq<Level>, lastUpdateId: int, ts: int)
    returns (merged: Book)
    ensures merged == Merge(num, book, bidDeltas, askDeltas, lastUpdateId, ts)
    // Bids come best, that is highest, first, asks lowest first; strictly so where prices are canonical.
    ensures forall i, j | 0 <= i < j < |merged.bids| :: num(merged.bids[i].0) >= num(merged.bids[j].0)
    ensures forall i, j | 0 <= i < j < |merged.asks| :: num(merged.asks[i].0) <= num(merged.asks[j].0)
    ensures Canonical(num, Prices(book.bids) + Prices(bidDeltas)) ==>
      forall i, j | 0 <= i < j < |merged.bids| :: num(merged.bids[i].0) > num(merged.bids[j].0)
    ensures Canonical(num, Prices(book.asks) + Prices(askDeltas)) ==>
      forall i, j | 0 <= i < j < |merged.asks| :: num(merged.asks[i].0) < num(merged.asks[j].0)
    // Bid deltas act on the bids and ask deltas on the asks.
    ensures forall p, q :: (p, q) in merged.bids <==> Entry(UpdateMap(num, MapOf(book.bids), bidDeltas), p, q)
    ensures forall p, q :: (p, q) in merged.asks <==> Entry(UpdateMap(num, MapOf(book.asks), askDeltas), p, q)
    ensures merged.lastUpdateId == lastUpdateId && merged.ts == ts
  {
    var bids := FromPairs(book.bids);
    var asks := FromPairs(book.asks);
    for i := 0 to |bidDeltas|
      invariant bids == ApplyAll(num, FromPairs(book.bids), bidDeltas[..i])
    {
      assert bidDeltas[..i + 1][..i] == bidDeltas[..i];
      var (price, qty) := bidDeltas[i];
      if num(qty) == 0.0 {
        bids := Pop(bids, price);
      } else {
        bids := Put(bids, price, qty);
      }
    }
    for i := 0 to |askDeltas|
      invariant asks == ApplyAll(num, FromPairs(book.asks), askDeltas[..i])
    {
      assert askDeltas[..i + 1][..i] == askDeltas[..i];
      var (price, qty) := askDeltas[i];
      if num(qty) == 0.0 {
        asks := Pop(asks, price);
      } else {
        asks := Put(asks, price, qty);
      }
    }
    assert bidDeltas[..|bidDeltas|] == bidDeltas && askDeltas[..|askDeltas|] == askDeltas;
    merged := Book(lastUpdateId, Sort(bids, SortKey(num, true)), Sort(asks, SortKey(num, false)), ts);
    MergedBook(num, book, bidDeltas, askDeltas, lastUpdateId, ts);
  }

  datatype Depth = Depth(bids: seq<Level>, asks: seq<Level>, lastUpdateId: int, ts: int)

  // Without a stored book the delta is only forwarded.
  function HandleDelta(num: Numeral, current: Option<Book>, d: Depth): Option<Book> {
    if current.None? then None else Some(Merge(num, current.value, d.bids, d.asks, d.lastUpdateId, d.ts))
  }

  function HandleDeltas(num: Numeral, current: Option<Book>, ds: seq<Depth>): Option<Book> {
    if ds == [] then current else HandleDelta(num, HandleDeltas(num, current, ds[..|ds| - 1]), ds[|ds| - 1])
  }

  function AllBids(ds: seq<Depth>): seq<Level> {
    if ds == [] then [] else AllBids(ds[..|ds| - 1]) + ds[|ds| - 1].bids
  }

  function AllAsks(ds: seq<Depth>): seq<Level> {
    if ds == [] then [] else AllAsks(ds[..|ds| - 1]) + ds[|ds| - 1].asks
  }

  // No stream of deltas makes a book: only a snapshot does.
  lemma {:induction false} NoBookWithoutASnapshot(num: Numeral, ds: seq<Depth>)
    ensures HandleDeltas(num, None, ds) == None
  {
    if ds != [] { NoBookWithoutASnapshot(num, ds[..|ds| - 1]); }
  }

  // A whole stream of deltas leaves the book that one merge of all of them would.
  lemma {:induction false} StreamEqualsOneMerge(num: Numeral, book: Book, ds: seq<Depth>)
    requires ds != []
    ensures var last := ds[|ds| - 1];
      HandleDeltas(num, Some(book), ds) == Some(Merge(num, book, AllBids(ds), AllAsks(ds), last.lastUpdateId, last.ts))
  {
    var init, last := ds[..|ds| - 1], ds[|ds| - 1];
    if init == [] {
      assert [] + last.bids == last.bids && [] + last.asks == last.asks;
    } else {
      StreamEqualsOneMerge(num, book, init);
      MergingIsCompositional(num, true, book.bids, AllBids(init), last.bids);
      MergingIsCompositional(num, false, book.asks, AllAsks(init), last.asks);
    }
  }
}
