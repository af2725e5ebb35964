// Applying the same depth delta twice: exactly when the second time changes the book.
//
// Both merges hold the same levels; only texts of equal value can change places.  A text that the delta
// zeroes and adds again goes to the end of its price every time, one that it only adds stays where it is.
module BookReplay {
  import opened Wrappers
  import opened StableSorting
  import opened OrderedDict
  import opened OrderBook

  // ---- The replayed book holds the same levels ----

  lemma UpdatingAgainChangesNothing(num: Numeral, m: map<string, string>, m': map<string, string>, deltas: seq<Level>)
    requires forall p | p !in Prices(deltas) :: (p in m <==> p in m') && (p in m ==> m[p] == m'[p])
    ensures UpdateMap(num, m, deltas) == UpdateMap(num, m', deltas)
  {
    var a, b := UpdateMap(num, m, deltas), UpdateMap(num, m', deltas);
    forall p ensures (p in a <==> p in b) && (p in a ==> a[p] == b[p]) {
      if p in Prices(deltas) {
        var i := LastIndex(deltas, p);
        LastDeltaWins(num, m, deltas, i);
        LastDeltaWins(num, m', deltas, i);
      } else {
        UntouchedPriceKeepsItsLevel(num, m, deltas, p);
        UntouchedPriceKeepsItsLevel(num, m', deltas, p);
      }
    }
  }

  lemma {:induction false} LastIndex(deltas: seq<Level>, p: string) returns (i: nat)
    requires p in Prices(deltas)
    ensures i < |deltas| && deltas[i].0 == p && forall j | i < j < |deltas| :: deltas[j].0 != p
  {
    if deltas[|deltas| - 1].0 == p {
      i := |deltas| - 1;
    } else {
      var init := deltas[..|deltas| - 1];
      var k :| 0 <= k < |deltas| && deltas[k].0 == p;
      assert init[k].0 == p;
      i := LastIndex(init, p);
    }
  }

  lemma {:induction false} UpdateConcat(num: Numeral, m: map<string, string>, first: seq<Level>, second: seq<Level>)
    ensures UpdateMap(num, m, first + second) == UpdateMap(num, UpdateMap(num, m, first), second)
  {
    if second == [] {
      assert first + second == first;
    } else {
      UpdateConcat(num, m, first, second[..|second| - 1]);
      assert (first + second)[..|first + second| - 1] == first + second[..|second| - 1];
    }
  }

  lemma ReplayKeepsTheMap(num: Numeral, descending: bool, levels: seq<Level>, deltas: seq<Level>)
    ensures var once, m := MergeSide(num, descending, levels, deltas), UpdateMap(num, MapOf(levels), deltas);
      Represents(once, m) && Represents(MergeSide(num, descending, once, deltas), m)
  {
    var m := MapOf(levels);
    MergingIsCompositional(num, descending, levels, deltas, deltas);
    UpdateConcat(num, m, deltas, deltas);
    forall p | p !in Prices(deltas)
      ensures var m' := UpdateMap(num, m, deltas); (p in m <==> p in m') && (p in m ==> m[p] == m'[p])
    {
      UntouchedPriceKeepsItsLevel(num, m, deltas, p);
    }
    UpdatingAgainChangesNothing(num, m, UpdateMap(num, m, deltas), deltas);
    MergeRefinesMap(num, descending, levels, deltas);
    MergeRefinesMap(num, descending, levels, deltas + deltas);
  }

  // ---- When a text was inserted ----

  predicate Zeroes(num: Numeral, delta: Level, p: string) {
    delta.0 == p && num(delta.1) == 0.0
  }

  predicate Zeroed(num: Numeral, deltas: seq<Level>, p: string) {
    exists i | 0 <= i < |deltas| :: Zeroes(num, deltas[i], p)
  }

  // Since which delta text p has been in the dict without a break: None if it is not there at the end,
  // -1 if it was there from the start.
  function Since(num: Numeral, deltas: seq<Level>, p: string, present: bool): Option<int> {
    if deltas == [] then if present then Some(-1) else None
    else
      var before, last := Since(num, deltas[..|deltas| - 1], p, present), deltas[|deltas| - 1];
      if last.0 != p then before
      else if num(last.1) == 0.0 then None
      else if before.Some? then before
      else Some(|deltas| - 1)
  }

  lemma {:induction false} SinceIsAnInsertion(num: Numeral, deltas: seq<Level>, p: string, present: bool)
    ensures var since := Since(num, deltas, p, present);
      since.Some? ==> -1 <= since.value < |deltas| && (since.value >= 0 ==> deltas[since.value].0 == p)
  {
    if deltas != [] { SinceIsAnInsertion(num, deltas[..|deltas| - 1], p, present); }
  }

  lemma ZeroedAppend(num: Numeral, deltas: seq<Level>, p: string)
    requires deltas != []
    ensures Zeroed(num, deltas, p) <==> Zeroed(num, deltas[..|deltas| - 1], p) || Zeroes(num, deltas[|deltas| - 1], p)
  {
    var init := deltas[..|deltas| - 1];
    assert forall i | 0 <= i < |init| :: init[i] == deltas[i];
  }

  // Where a zeroed text ends up does not depend on the dict before; one never zeroed stays where it was.
  lemma {:induction false} SinceAfterZeroing(num: Numeral, deltas: seq<Level>, p: string, present: bool)
    ensures Zeroed(num, deltas, p) ==> Since(num, deltas, p, present) == Since(num, deltas, p, true)
    ensures Zeroed(num, deltas, p) && Since(num, deltas, p, present).Some? ==> Since(num, deltas, p, present).value >= 0
    ensures !Zeroed(num, deltas, p) ==> Since(num, deltas, p, true) == Some(-1)
  {
    if deltas != [] {
      ZeroedAppend(num, deltas, p);
      SinceAfterZeroing(num, deltas[..|deltas| - 1], p, present);
    }
  }

  lemma {:induction false} SinceTellsPresence(num: Numeral, d: seq<Level>, deltas: seq<Level>, p: string)
    requires UniqueKeys(d)
    ensures HasKey(ApplyAll(num, d, deltas), p) <==> Since(num, deltas, p, HasKey(d, p)).Some?
  {
    if deltas != [] {
      var init, last := deltas[..|deltas| - 1], deltas[|deltas| - 1];
      SinceTellsPresence(num, d, init, p);
      ApplyAllIsUnique(num, d, init);
      PutPrecedes(ApplyAll(num, d, init), last.0, last.1, p, p);
      PopHasKey(ApplyAll(num, d, init), last.0, p);
    }
  }

  // Of two texts, the one inserted earlier comes first; texts there from the start keep their order.
  predicate Earlier(since: Option<int>, since': Option<int>, wereOrdered: bool) {
    since.Some? && since'.Some? && (since.value < since'.value || (since.value == since'.value && wereOrdered))
  }

  lemma {:induction false} OrderByInsertion(num: Numeral, d: seq<Level>, deltas: seq<Level>, p: string, q: string)
    requires UniqueKeys(d) && p != q
    ensures var out := ApplyAll(num, d, deltas);
      Precedes(out, p, q) <==>
        Earlier(Since(num, deltas, p, HasKey(d, p)), Since(num, deltas, q, HasKey(d, q)), Precedes(d, p, q))
  {
    PrecedesHasKeys(d, p, q);
    if deltas != [] {
      var init, last := deltas[..|deltas| - 1], deltas[|deltas| - 1];
      var before := ApplyAll(num, d, init);
      OrderByInsertion(num, d, init, p, q);
      SinceTellsPresence(num, d, init, p);
      SinceTellsPresence(num, d, init, q);
      SinceIsAnInsertion(num, init, p, HasKey(d, p));
      SinceIsAnInsertion(num, init, q, HasKey(d, q));
      ApplyAllIsUnique(num, d, init);
      PutPrecedes(before, last.0, last.1, p, q);
      PopPrecedes(before, last.0, p, q);
      PrecedesHasKeys(before, p, q);
    }
  }

  // ---- Sorting keeps the order of equal prices ----

  lemma {:induction false} ClassPrecedes(num: Numeral, descending: bool, s: seq<Level>, p: string, q: string)
    requires num(p) == num(q)
    ensures var key := SortKey(num, descending); var level := At(s, key, key((p, "")));
      (Precedes(level, p, q) <==> Precedes(s, p, q)) && (HasKey(level, p) <==> HasKey(s, p))
  {
    if s != [] {
      var key, init, last := SortKey(num, descending), s[..|s| - 1], s[|s| - 1];
      ClassPrecedes(num, descending, init, p, q);
      assert s == init + [last];
      PrecedesAppend(init, last, p, q);
      PrecedesAppend(At(init, key, key((p, ""))), last, p, q);
      assert At(init, key, key((p, ""))) + [] == At(init, key, key((p, "")));
    }
  }

  lemma SortPrecedes(num: Numeral, descending: bool, d: seq<Level>, p: string, q: string)
    requires num(p) == num(q)
    ensures Precedes(Sort(d, SortKey(num, descending)), p, q) <==> Precedes(d, p, q)
  {
    var key := SortKey(num, descending);
    SortIsStable(d, key, key((p, "")));
    ClassPrecedes(num, descending, d, p, q);
    ClassPrecedes(num, descending, Sort(d, key), p, q);
  }

  lemma OrderedPrecedes(num: Numeral, descending: bool, s: seq<Level>, p: string, q: string)
    requires Ordered(s, SortKey(num, descending)) && num(p) != num(q)
    ensures Precedes(s, p, q) <==>
      HasKey(s, p) && HasKey(s, q) && SortKey(num, descending)((p, "")) < SortKey(num, descending)((q, ""))
  {
    PrecedesHasKeys(s, p, q);
    if HasKey(s, p) && HasKey(s, q) {
      var key := SortKey(num, descending);
      var i :| 0 <= i < |s| && s[i].0 == p;
      var j :| 0 <= j < |s| && s[j].0 == q;
      assert key(s[i]) == key((p, "")) && key(s[j]) == key((q, ""));
    }
  }

  // ---- The condition ----

  // The delta zeroes p and adds it again, and only after that adds q, a text of the same value that was
  // not there before and that it never zeroes.
  predicate Overtaken(num: Numeral, levels: seq<Level>, deltas: seq<Level>, p: string, q: string) {
    var since, since' := Since(num, deltas, p, p in Prices(levels)), Since(num, deltas, q, q in Prices(levels));
    && p != q && num(p) == num(q) && Zeroed(num, deltas, p) && !Zeroed(num, deltas, q)
    && since.Some? && since'.Some? && since.value < since'.value
  }

  lemma {:induction false} DictHasThePrices(levels: seq<Level>, p: string)
    ensures HasKey(FromPairs(levels), p) <==> p in Prices(levels)
  {
    if levels != [] {
      var init, last := levels[..|levels| - 1], levels[|levels| - 1];
      DictHasThePrices(init, p);
      PutPrecedes(FromPairs(init), last.0, last.1, p, p);
      assert levels == init + [last];
      assert p in Prices(levels) <==> p in Prices(init) || p == last.0;
    }
  }

  // The order of two texts of one price in the book merged once, and in the book merged twice.
  lemma OrderOnceAndTwice(num: Numeral, descending: bool, levels: seq<Level>, deltas: seq<Level>, p: string, q: string)
    requires p != q && num(p) == num(q)
    ensures var once := MergeSide(num, descending, levels, deltas);
      && (Precedes(once, p, q) <==>
            Earlier(Since(num, deltas, p, p in Prices(levels)), Since(num, deltas, q, q in Prices(levels)),
                    Precedes(FromPairs(levels), p, q)))
      && (Precedes(MergeSide(num, descending, once, deltas), p, q) <==>
            Earlier(Since(num, deltas, p, HasKey(once, p)), Since(num, deltas, q, HasKey(once, q)),
              Precedes(once, p, q)))
  {
    var d, once := FromPairs(levels), MergeSide(num, descending, levels, deltas);
    FromPairsIsUnique(levels);
    DictHasThePrices(levels, p);
    DictHasThePrices(levels, q);
    OrderByInsertion(num, d, deltas, p, q);
    SortPrecedes(num, descending, ApplyAll(num, d, deltas), p, q);
    MergedLevelsAreADict(num, descending, levels, deltas);
    OrderByInsertion(num, once, deltas, p, q);
    SortPrecedes(num, descending, ApplyAll(num, once, deltas), p, q);
  }

  lemma PresentOnce(num: Numeral, descending: bool, levels: seq<Level>, deltas: seq<Level>, p: string)
    ensures HasKey(MergeSide(num, descending, levels, deltas), p) <==> Since(num, deltas, p, p in Prices(levels)).Some?
  {
    var d := FromPairs(levels);
    FromPairsIsUnique(levels);
    DictHasThePrices(levels, p);
    SinceTellsPresence(num, d, deltas, p);
    SortIsAPermutation(ApplyAll(num, d, deltas), SortKey(num, descending));
    SameKeys(Sort(ApplyAll(num, d, deltas), SortKey(num, descending)), ApplyAll(num, d, deltas), p);
  }

  lemma SameKeys(s: seq<Level>, t: seq<Level>, p: string)
    requires multiset(s) == multiset(t)
    ensures HasKey(s, p) <==> HasKey(t, p)
  {
    forall e ensures e in s <==> e in t { assert e in multiset(s) <==> e in multiset(t); }
    if HasKey(s, p) { var i :| 0 <= i < |s| && s[i].0 == p; assert s[i] in t; }
    if HasKey(t, p) { var i :| 0 <= i < |t| && t[i].0 == p; assert t[i] in s; }
  }

  lemma ReplayedPair(num: Numeral, descending: bool, levels: seq<Level>, deltas: seq<Level>, p: string, q: string)
    requires p != q && num(p) == num(q)
    requires HasKey(MergeSide(num, descending, levels, deltas), p)
      && HasKey(MergeSide(num, descending, levels, deltas), q)
    ensures var once := MergeSide(num, descending, levels, deltas);
      (Precedes(MergeSide(num, descending, once, deltas), p, q) <==> Precedes(once, p, q)) <==>
      !Overtaken(num, levels, deltas, p, q) && !Overtaken(num, levels, deltas, q, p)
  {
    PresentOnce(num, descending, levels, deltas, p);
    PresentOnce(num, descending, levels, deltas, q);
    OrderOnceAndTwice(num, descending, levels, deltas, p, q);
    SinceAfterZeroing(num, deltas, p, p in Prices(levels));
    SinceAfterZeroing(num, deltas, q, q in Prices(levels));
    SinceIsAnInsertion(num, deltas, p, p in Prices(levels));
    SinceIsAnInsertion(num, deltas, q, q in Prices(levels));
  }

  // A replayed delta changes nothing if and only if no text is overtaken, for all price texts, levels
  // and deltas.
  lemma ReplayIsHarmlessExactly(num: Numeral, descending: bool, levels: seq<Level>, deltas: seq<Level>)
    ensures var once := MergeSide(num, descending, levels, deltas);
      MergeSide(num, descending, once, deltas) == once <==> !exists p, q :: Overtaken(num, levels, deltas, p, q)
  {
    var once := MergeSide(num, descending, levels, deltas);
    var twice := MergeSide(num, descending, once, deltas);
    if exists p, q :: Overtaken(num, levels, deltas, p, q) {
      var p, q :| Overtaken(num, levels, deltas, p, q);
      PresentOnce(num, descending, levels, deltas, p);
      PresentOnce(num, descending, levels, deltas, q);
      ReplayedPair(num, descending, levels, deltas, p, q);
    } else {
      NothingOvertaken(num, descending, levels, deltas);
    }
  }

  lemma NothingOvertaken(num: Numeral, descending: bool, levels: seq<Level>, deltas: seq<Level>)
    requires !exists p, q :: Overtaken(num, levels, deltas, p, q)
    ensures var once := MergeSide(num, descending, levels, deltas); MergeSide(num, descending, once, deltas) == once
  {
    var once := MergeSide(num, descending, levels, deltas);
    var twice := MergeSide(num, descending, once, deltas);
    ReplayKeepsTheMap(num, descending, levels, deltas);
    forall e ensures e in twice <==> e in once {
      GetHasKey(twice, e.0);
      GetHasKey(once, e.0);
    }
    forall p, q ensures Precedes(twice, p, q) <==> Precedes(once, p, q) {
      SameOrder(num, descending, levels, deltas, p, q);
    }
    OrderDetermines(twice, once);
  }

  lemma SameOrder(num: Numeral, descending: bool, levels: seq<Level>, deltas: seq<Level>, p: string, q: string)
    requires !Overtaken(num, levels, deltas, p, q) && !Overtaken(num, levels, deltas, q, p)
    ensures var once := MergeSide(num, descending, levels, deltas);
      Precedes(MergeSide(num, descending, once, deltas), p, q) <==> Precedes(once, p, q)
  {
    var once := MergeSide(num, descending, levels, deltas);
    var twice := MergeSide(num, descending, once, deltas);
    ReplayKeepsTheMap(num, descending, levels, deltas);
    GetHasKey(twice, p);
    GetHasKey(twice, q);
    GetHasKey(once, p);
    GetHasKey(once, q);
    PrecedesHasKeys(twice, p, q);
    PrecedesHasKeys(once, p, q);
    if HasKey(once, p) && HasKey(once, q) && p != q {
      if num(p) == num(q) {
        ReplayedPair(num, descending, levels, deltas, p, q);
      } else {
        MergedSideIsSorted(num, descending, levels, deltas);
        MergedSideIsSorted(num, descending, once, deltas);
        OrderedPrecedes(num, descending, once, p, q);
        OrderedPrecedes(num, descending, twice, p, q);
      }
    }
  }

  // ---- Two kinds of delta that always replay harmlessly ----

  lemma {:induction false} ZeroedOnceIsGone(num: Numeral, deltas: seq<Level>, p: string, present: bool)
    requires UniqueKeys(deltas) && Zeroed(num, deltas, p)
    ensures Since(num, deltas, p, present).None?
  {
    var init, last := deltas[..|deltas| - 1], deltas[|deltas| - 1];
    ZeroedAppend(num, deltas, p);
    if !Zeroes(num, last, p) {
      var i :| 0 <= i < |init| && Zeroes(num, init[i], p);
      assert deltas[i].0 != deltas[|deltas| - 1].0;
      ZeroedOnceIsGone(num, init, p, present);
    }
  }

  // A delta that names no price text twice, however prices are written.
  lemma DeltaWithoutRepeatsReplaysHarmlessly(num: Numeral, descending: bool, levels: seq<Level>, deltas: seq<Level>)
    requires UniqueKeys(deltas)
    ensures var once := MergeSide(num, descending, levels, deltas); MergeSide(num, descending, once, deltas) == once
  {
    forall p, q ensures !Overtaken(num, levels, deltas, p, q) {
      if Zeroed(num, deltas, p) { ZeroedOnceIsGone(num, deltas, p, p in Prices(levels)); }
    }
    ReplayIsHarmlessExactly(num, descending, levels, deltas);
  }

  // A delta whose own prices are written canonically, whatever the book holds.
  lemma MergingTwiceIsMergingOnce(num: Numeral, descending: bool, levels: seq<Level>, deltas: seq<Level>)
    requires Canonical(num, Prices(deltas))
    ensures MergeSide(num, descending, MergeSide(num, descending, levels, deltas), deltas)
      == MergeSide(num, descending, levels, deltas)
  {
    forall p, q ensures !Overtaken(num, levels, deltas, p, q) {
      SinceAfterZeroing(num, deltas, p, p in Prices(levels));
      SinceIsAnInsertion(num, deltas, p, p in Prices(levels));
      SinceIsAnInsertion(num, deltas, q, q in Prices(levels));
    }
    ReplayIsHarmlessExactly(num, descending, levels, deltas);
  }

  // ---- All deltas over a set of texts ----

  ghost predicate MergesIdempotently(num: Numeral, descending: bool, prices: set<string>) {
    forall levels: seq<Level>, deltas: seq<Level> | Prices(levels) + Prices(deltas) <= prices ::
      MergeSide(num, descending, MergeSide(num, descending, levels, deltas), deltas)
        == MergeSide(num, descending, levels, deltas)
  }

  // Unlike composition, idempotence needs canonical texts, and over a given set of price texts it
  // needs nothing else: two texts of equal value change places when a delta is replayed.
  lemma IdempotentExactlyWhenCanonical(num: Numeral, descending: bool, prices: set<string>)
    requires num("0") == 0.0 && num("1") == 1.0
    ensures MergesIdempotently(num, descending, prices) <==> Canonical(num, prices)
  {
    if Canonical(num, prices) {
      forall levels: seq<Level>, deltas: seq<Level> | Prices(levels) + Prices(deltas) <= prices
        ensures MergeSide(num, descending, MergeSide(num, descending, levels, deltas), deltas)
          == MergeSide(num, descending, levels, deltas)
      {
        MergingTwiceIsMergingOnce(num, descending, levels, deltas);
      }
    } else {
      var p, q :| p in prices && q in prices && p != q && num(p) == num(q);
      var deltas := Tie(p, q);
      ReplayedTie(num, descending, p, q);
      assert Prices([]) + Prices(deltas) <= prices;
    }
  }

  function Tie(p: string, q: string): seq<Level> {
    [(p, "0"), (p, "1"), (q, "1")]
  }

  lemma ReplayedTie(num: Numeral, descending: bool, p: string, q: string)
    requires p != q && num(p) == num(q) && num("0") == 0.0 && num("1") == 1.0
    ensures MergeSide(num, descending, [], Tie(p, q)) == [(p, "1"), (q, "1")]
    ensures MergeSide(num, descending, MergeSide(num, descending, [], Tie(p, q)), Tie(p, q)) == [(q, "1"), (p, "1")]
  {
    TieFromEmpty(num, p, q);
    TwoTied([(p, "1"), (q, "1")], SortKey(num, descending));
    TieReplayed(num, p, q);
    UniquePairsAreADict<string, string>([(p, "1"), (q, "1")]);
    TwoTied([(q, "1"), (p, "1")], SortKey(num, descending));
  }

  lemma TieFromEmpty(num: Numeral, p: string, q: string)
    requires p != q && num("0") == 0.0 && num("1") == 1.0
    ensures ApplyAll(num, [], Tie(p, q)) == [(p, "1"), (q, "1")]
  {
    ThreeDeltas(num, [], (p, "0"), (p, "1"), (q, "1"));
    PutNewAppends([(p, "1")], q, "1");
  }

  lemma TieReplayed(num: Numeral, p: string, q: string)
    requires p != q && num("0") == 0.0 && num("1") == 1.0
    ensures ApplyAll(num, [(p, "1"), (q, "1")], Tie(p, q)) == [(q, "1"), (p, "1")]
  {
    ThreeDeltas(num, [(p, "1"), (q, "1")], (p, "0"), (p, "1"), (q, "1"));
    assert [(p, "1"), (q, "1")][1..] == [(q, "1")];
    PutNewAppends([(q, "1")], p, "1");
    assert [(q, "1"), (p, "1")] == [(q, "1")] + [(p, "1")];
    PutPrepend((q, "1"), [(p, "1")], q, "1");
  }

  lemma ThreeDeltas(num: Numeral, d: seq<Level>, a: Level, b: Level, c: Level)
    ensures ApplyAll(num, d, [a, b, c]) == ApplyOne(num, ApplyOne(num, ApplyOne(num, d, a), b), c)
  {
    assert [a, b, c][..2] == [a, b] && [a, b][..1] == [a] && [a][..0] == [];
    assert ApplyAll(num, d, [a]) == ApplyOne(num, d, a);
    assert ApplyAll(num, d, [a, b]) == ApplyOne(num, ApplyAll(num, d, [a]), b);
  }

  lemma TwoTied(s: seq<Level>, key: Level -> real)
    requires |s| == 2 && key(s[0]) == key(s[1])
    ensures Sort(s, key) == s
  {
    assert s[..1] == [s[0]] && s[..1][..0] == [];
    assert Sort(s[..1], key) == [s[0]];
  }
}
