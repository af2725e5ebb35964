// Python's sorted(): a stable sort by a real key.  Its result is the only ordered sequence in
// which the elements of every single key keep their relative order.
module StableSorting {

  ghost predicate Ordered<T(!new)>(s: seq<T>, key: T -> real) {
    forall i, j | 0 <= i < j < |s| :: key(s[i]) <= key(s[j])
  }

  ghost predicate StrictlyOrdered<T(!new)>(s: seq<T>, key: T -> real) {
    forall i, j | 0 <= i < j < |s| :: key(s[i]) < key(s[j])
  }

  // Puts x behind every element whose key is not greater.
  function Insert<T>(s: seq<T>, x: T, key: T -> real): seq<T> {
    if s == [] || key(s[|s| - 1]) <= key(x) then s + [x]
    else Insert(s[..|s| - 1], x, key) + [s[|s| - 1]]
  }

  function Sort<T>(s: seq<T>, key: T -> real): seq<T> {
    if s == [] then [] else Insert(Sort(s[..|s| - 1], key), s[|s| - 1], key)
  }

  // The elements of key v, in their order.
  function At<T>(s: seq<T>, key: T -> real, v: real): seq<T> {
    if s == [] then []
    else At(s[..|s| - 1], key, v) + (if key(s[|s| - 1]) == v then [s[|s| - 1]] else [])
  }

  lemma AtAppend<T>(s: seq<T>, x: T, key: T -> real, v: real)
    ensures At(s + [x], key, v) == At(s, key, v) + (if key(x) == v then [x] else [])
  {
    assert (s + [x])[..|s|] == s;
  }

  lemma {:induction false} InsertIsAPermutation<T>(s: seq<T>, x: T, key: T -> real)
    ensures multiset(Insert(s, x, key)) == multiset(s) + multiset{x}
    ensures |Insert(s, x, key)| == |s| + 1
  {
    if s != [] && key(s[|s| - 1]) > key(x) {
      InsertIsAPermutation(s[..|s| - 1], x, key);
      assert s == s[..|s| - 1] + [s[|s| - 1]];
    }
  }

  lemma {:induction false} SortIsAPermutation<T>(s: seq<T>, key: T -> real)
    ensures multiset(Sort(s, key)) == multiset(s) && |Sort(s, key)| == |s|
  {
    if s != [] {
      SortIsAPermutation(s[..|s| - 1], key);
      InsertIsAPermutation(Sort(s[..|s| - 1], key), s[|s| - 1], key);
      assert s == s[..|s| - 1] + [s[|s| - 1]];
    }
  }

  lemma {:induction false} InsertKeepsOrder<T(!new)>(s: seq<T>, x: T, key: T -> real)
    requires Ordered(s, key)
    ensures Ordered(Insert(s, x, key), key)
  {
    if s != [] && key(s[|s| - 1]) > key(x) {
      var init, last := s[..|s| - 1], s[|s| - 1];
      InsertKeepsOrder(init, x, key);
      InsertIsAPermutation(init, x, key);
      var out := Insert(init, x, key);
      forall i | 0 <= i < |out| ensures key(out[i]) <= key(last) {
        assert out[i] in multiset(out);
        assert out[i] in multiset(init) || out[i] == x;
      }
    }
  }

  lemma {:induction false} SortIsOrdered<T(!new)>(s: seq<T>, key: T -> real)
    ensures Ordered(Sort(s, key), key)
  {
    if s != [] {
      SortIsOrdered(s[..|s| - 1], key);
      InsertKeepsOrder(Sort(s[..|s| - 1], key), s[|s| - 1], key);
    }
  }

  lemma {:induction false} InsertIsStable<T(!new)>(s: seq<T>, x: T, key: T -> real, v: real)
    requires Ordered(s, key)
    ensures At(Insert(s, x, key), key, v) == At(s, key, v) + (if key(x) == v then [x] else [])
  {
    if s == [] || key(s[|s| - 1]) <= key(x) {
      AtAppend(s, x, key, v);
    } else {
      var init, last := s[..|s| - 1], s[|s| - 1];
      InsertIsStable(init, x, key, v);
      AtAppend(Insert(init, x, key), last, key, v);
    }
  }

  lemma {:induction false} SortIsStable<T(!new)>(s: seq<T>, key: T -> real, v: real)
    ensures At(Sort(s, key), key, v) == At(s, key, v)
  {
    if s != [] {
      SortIsStable(s[..|s| - 1], key, v);
      SortIsOrdered(s[..|s| - 1], key);
      InsertIsStable(Sort(s[..|s| - 1], key), s[|s| - 1], key, v);
    }
  }

  lemma {:induction false} AtIsEmptyAbove<T(!new)>(s: seq<T>, key: T -> real, v: real)
    requires forall i | 0 <= i < |s| :: key(s[i]) < v
    ensures At(s, key, v) == []
  {
    if s != [] { AtIsEmptyAbove(s[..|s| - 1], key, v); }
  }

  lemma LastClassIsNotEmpty<T(!new)>(s: seq<T>, key: T -> real)
    requires s != []
    ensures At(s, key, key(s[|s| - 1])) != []
  {
  }

  lemma NoClassAboveTheLast<T(!new)>(s: seq<T>, key: T -> real, v: real)
    requires Ordered(s, key) && (s == [] || key(s[|s| - 1]) < v)
    ensures At(s, key, v) == []
  {
    forall i | 0 <= i < |s| ensures key(s[i]) < v {
      assert i < |s| - 1 ==> key(s[i]) <= key(s[|s| - 1]);
    }
    AtIsEmptyAbove(s, key, v);
  }

  // The greatest key of an ordered sequence is that of its last element.
  lemma LastKeys<T(!new)>(s: seq<T>, t: seq<T>, key: T -> real)
    requires Ordered(s, key) && Ordered(t, key) && s != []
    requires forall v :: At(s, key, v) == At(t, key, v)
    ensures t != [] && key(t[|t| - 1]) >= key(s[|s| - 1])
  {
    var v := key(s[|s| - 1]);
    LastClassIsNotEmpty(s, key);
    assert At(s, key, v) == At(t, key, v);
    if t == [] || key(t[|t| - 1]) < v {
      NoClassAboveTheLast(t, key, v);
    }
  }

  lemma Cancel<T>(a: seq<T>, b: seq<T>, x: T)
    requires a + [x] == b + [x]
    ensures a == b
  {
    assert (a + [x])[..|a|] == a && (b + [x])[..|b|] == b;
    assert |a + [x]| == |b + [x]|;
  }

  lemma ClassWithoutTheLast<T(!new)>(s: seq<T>, t: seq<T>, x: T, key: T -> real, v: real)
    requires At(s + [x], key, v) == At(t + [x], key, v)
    ensures At(s, key, v) == At(t, key, v)
  {
    AtAppend(s, x, key, v);
    AtAppend(t, x, key, v);
    if key(x) == v {
      Cancel(At(s, key, v), At(t, key, v), x);
    } else {
      assert At(s, key, v) + [] == At(s, key, v) && At(t, key, v) + [] == At(t, key, v);
    }
  }

  lemma SameLastElement<T(!new)>(s: seq<T>, x: T, t: seq<T>, y: T, key: T -> real)
    requires key(x) == key(y) && At(s + [x], key, key(x)) == At(t + [y], key, key(x))
    ensures x == y
  {
    var v := key(x);
    AtAppend(s, x, key, v);
    AtAppend(t, y, key, v);
    assert x == At(s + [x], key, v)[|At(s + [x], key, v)| - 1] == y;
  }

  lemma SameLastKey<T(!new)>(s: seq<T>, t: seq<T>, key: T -> real)
    requires Ordered(s, key) && Ordered(t, key) && (s != [] || t != [])
    requires forall v :: At(s, key, v) == At(t, key, v)
    ensures s != [] && t != [] && key(s[|s| - 1]) == key(t[|t| - 1])
  {
    if s != [] { LastKeys(s, t, key); }
    if t != [] { LastKeys(t, s, key); }
  }

  // An ordered sequence is determined by its classes.
  lemma {:induction false} ClassesDetermine<T(!new)>(s: seq<T>, t: seq<T>, key: T -> real)
    requires Ordered(s, key) && Ordered(t, key)
    requires forall v :: At(s, key, v) == At(t, key, v)
    ensures s == t
  {
    if s != [] || t != [] {
      SameLastKey(s, t, key);
      var s', x, t', y := s[..|s| - 1], s[|s| - 1], t[..|t| - 1], t[|t| - 1];
      assert s == s' + [x] && t == t' + [y];
      SameLastElement(s', x, t', y, key);
      forall v ensures At(s', key, v) == At(t', key, v) {
        ClassWithoutTheLast(s', t', x, key, v);
      }
      ClassesDetermine(s', t', key);
    }
  }

  // Two sequences with the same classes sort to the same result.
  lemma SameClassesSortAlike<T(!new)>(s: seq<T>, t: seq<T>, key: T -> real)
    requires forall v :: At(s, key, v) == At(t, key, v)
    ensures Sort(s, key) == Sort(t, key)
  {
    SortIsOrdered(s, key);
    SortIsOrdered(t, key);
    forall v ensures At(Sort(s, key), key, v) == At(Sort(t, key), key, v) {
      SortIsStable(s, key, v);
      SortIsStable(t, key, v);
      assert At(s, key, v) == At(t, key, v);
    }
    ClassesDetermine(Sort(s, key), Sort(t, key), key);
  }
}
