// Python's dict: entries in insertion order, at most one per key.
module OrderedDict {
  import opened Wrappers

  ghost predicate UniqueKeys<K, V>(d: seq<(K, V)>) {
    forall i, j | 0 <= i < j < |d| :: d[i].0 != d[j].0
  }

  predicate HasKey<K(==), V>(d: seq<(K, V)>, k: K) {
    exists i | 0 <= i < |d| :: d[i].0 == k
  }

  // d[k] = v: an existing entry keeps its place, a new one goes to the end.
  function Put<K(==), V>(d: seq<(K, V)>, k: K, v: V): seq<(K, V)> {
    if d == [] then [(k, v)]
    else if d[0].0 == k then [(k, v)] + d[1..]
    else [d[0]] + Put(d[1..], k, v)
  }

  // d.pop(k, None)
  function Pop<K(==), V>(d: seq<(K, V)>, k: K): seq<(K, V)> {
    if d == [] then []
    else if d[0].0 == k then d[1..]
    else [d[0]] + Pop(d[1..], k)
  }

  function Get<K(==), V>(d: seq<(K, V)>, k: K): Option<V> {
    if d == [] then None
    else if d[0].0 == k then Some(d[0].1)
    else Get(d[1..], k)
  }

  // The dict built from pairs: the last value of a key wins, its first position counts.
  function FromPairs<K(==), V>(pairs: seq<(K, V)>): seq<(K, V)> {
    if pairs == [] then [] else Put(FromPairs(pairs[..|pairs| - 1]), pairs[|pairs| - 1].0, pairs[|pairs| - 1].1)
  }

  lemma PutPrepend<K, V>(x: (K, V), d: seq<(K, V)>, k: K, v: V)
    ensures Put([x] + d, k, v) == if x.0 == k then [(k, v)] + d else [x] + Put(d, k, v)
    ensures Pop([x] + d, k) == if x.0 == k then d else [x] + Pop(d, k)
  {
    assert ([x] + d)[1..] == d;
  }

  lemma AbsentFromRest<K, V>(x: (K, V), rest: seq<(K, V)>, k: K)
    requires !HasKey([x] + rest, k)
    ensures x.0 != k && !HasKey(rest, k)
  {
    var d := [x] + rest;
    assert d[0] == x && forall i | 0 <= i < |rest| :: rest[i] == d[i + 1];
  }

  lemma {:induction false} PopAt<K, V>(before: seq<(K, V)>, x: (K, V), after: seq<(K, V)>)
    requires !HasKey(before, x.0)
    ensures Pop(before + ([x] + after), x.0) == before + after
  {
    if before == [] {
      PutPrepend(x, after, x.0, x.1);
      assert [] + ([x] + after) == [x] + after && [] + after == after;
    } else {
      var y, rest := before[0], before[1..];
      assert before == [y] + rest;
      AbsentFromRest(y, rest, x.0);
      PopAt(rest, x, after);
      PutPrepend(y, rest + ([x] + after), x.0, x.1);
      assert [y] + (rest + ([x] + after)) == before + ([x] + after);
      assert [y] + (rest + after) == before + after;
    }
  }

  lemma {:induction false} GetHasKey<K, V>(d: seq<(K, V)>, k: K)
    ensures Get(d, k).Some? <==> HasKey(d, k)
    ensures Get(d, k).Some? ==> (k, Get(d, k).value) in d
    ensures UniqueKeys(d) ==> forall i | 0 <= i < |d| && d[i].0 == k :: Get(d, k) == Some(d[i].1)
  {
    if d != [] {
      GetHasKey(d[1..], k);
      assert forall i | 1 <= i < |d| :: d[i] == d[1..][i - 1];
    }
  }

  lemma {:induction false} PutSpec<K, V>(d: seq<(K, V)>, k: K, v: V)
    requires UniqueKeys(d)
    ensures UniqueKeys(Put(d, k, v))
    ensures forall x :: Get(Put(d, k, v), x) == if x == k then Some(v) else Get(d, x)
    ensures forall i | 0 <= i < |Put(d, k, v)| :: Put(d, k, v)[i].0 == k || HasKey(d, Put(d, k, v)[i].0)
  {
    if d != [] && d[0].0 != k {
      var rest := Put(d[1..], k, v);
      PutSpec(d[1..], k, v);
      forall i | 0 <= i < |rest| ensures rest[i].0 != d[0].0 {
        if rest[i].0 != k {
          var j :| 0 <= j < |d| - 1 && d[1..][j].0 == rest[i].0;
          assert d[j + 1].0 == rest[i].0;
        }
      }
      var out := Put(d, k, v);
      forall i | 0 <= i < |out| ensures out[i].0 == k || HasKey(d, out[i].0) {
        if i > 0 && out[i].0 != k {
          assert out[i] == rest[i - 1];
          var j :| 0 <= j < |d| - 1 && d[1..][j].0 == rest[i - 1].0;
          assert d[j + 1].0 == out[i].0;
        }
      }
      forall x ensures Get(out, x) == if x == k then Some(v) else Get(d, x) {
        assert out[0] == d[0] && out[1..] == rest;
      }
    } else if d != [] {
      var out := Put(d, k, v);
      assert out[1..] == d[1..];
      assert forall i | 1 <= i < |out| :: out[i] == d[i];
    }
  }

  lemma {:induction false} PopSpec<K, V>(d: seq<(K, V)>, k: K)
    requires UniqueKeys(d)
    ensures UniqueKeys(Pop(d, k))
    ensures forall x :: Get(Pop(d, k), x) == if x == k then None else Get(d, x)
    ensures forall i | 0 <= i < |Pop(d, k)| :: HasKey(d, Pop(d, k)[i].0)
  {
    if d != [] && d[0].0 != k {
      var rest := Pop(d[1..], k);
      PopSpec(d[1..], k);
      var out := Pop(d, k);
      forall i | 0 <= i < |rest| ensures rest[i].0 != d[0].0 && HasKey(d, rest[i].0) {
        var j :| 0 <= j < |d| - 1 && d[1..][j].0 == rest[i].0;
        assert d[j + 1].0 == rest[i].0;
      }
      forall i | 0 <= i < |out| ensures HasKey(d, out[i].0) {
        if i > 0 { assert out[i] == rest[i - 1]; }
      }
      forall x ensures Get(out, x) == if x == k then None else Get(d, x) {
        assert out[0] == d[0] && out[1..] == rest;
      }
    } else if d != [] {
      GetHasKey(d[1..], k);
      assert forall i | 0 <= i < |d| - 1 :: d[1..][i] == d[i + 1];
    }
  }

  lemma {:induction false} FromPairsIsUnique<K, V>(pairs: seq<(K, V)>)
    ensures UniqueKeys(FromPairs(pairs))
  {
    if pairs != [] {
      FromPairsIsUnique(pairs[..|pairs| - 1]);
      PutSpec(FromPairs(pairs[..|pairs| - 1]), pairs[|pairs| - 1].0, pairs[|pairs| - 1].1);
    }
  }

  lemma {:induction false} PutNewAppends<K, V>(d: seq<(K, V)>, k: K, v: V)
    requires !HasKey(d, k)
    ensures Put(d, k, v) == d + [(k, v)]
  {
    if d != [] {
      assert d[0].0 != k;
      assert forall i | 0 <= i < |d| - 1 :: d[1..][i] == d[i + 1];
      PutNewAppends(d[1..], k, v);
      assert d == [d[0]] + d[1..];
    }
  }

  // Pairs without repeated keys already are the dict.
  lemma {:induction false} UniquePairsAreADict<K, V>(pairs: seq<(K, V)>)
    requires UniqueKeys(pairs)
    ensures FromPairs(pairs) == pairs
  {
    if pairs != [] {
      var init, last := pairs[..|pairs| - 1], pairs[|pairs| - 1];
      UniquePairsAreADict(init);
      PutNewAppends(init, last.0, last.1);
      assert pairs == init + [last];
    }
  }

  // ---- The order of two keys ----

  ghost predicate Precedes<K, V>(d: seq<(K, V)>, a: K, b: K) {
    exists i, j | 0 <= i < j < |d| :: d[i].0 == a && d[j].0 == b
  }

  lemma PrecedesHasKeys<K, V>(d: seq<(K, V)>, a: K, b: K)
    ensures Precedes(d, a, b) ==> HasKey(d, a) && HasKey(d, b)
    ensures UniqueKeys(d) && Precedes(d, a, b) ==> a != b && !Precedes(d, b, a)
    ensures HasKey(d, a) && HasKey(d, b) && a != b ==> Precedes(d, a, b) || Precedes(d, b, a)
  {
  }

  lemma PrecedesAppend<K, V>(d: seq<(K, V)>, x: (K, V), a: K, b: K)
    ensures Precedes(d + [x], a, b) <==> Precedes(d, a, b) || (HasKey(d, a) && b == x.0)
    ensures HasKey(d + [x], a) <==> HasKey(d, a) || a == x.0
  {
    var e := d + [x];
    assert e[|d|] == x && forall i | 0 <= i < |d| :: e[i] == d[i];
  }

  lemma PrecedesPrepend<K, V>(x: (K, V), d: seq<(K, V)>, a: K, b: K)
    ensures Precedes([x] + d, a, b) <==> Precedes(d, a, b) || (HasKey(d, b) && a == x.0)
    ensures HasKey([x] + d, a) <==> HasKey(d, a) || a == x.0
  {
    var e := [x] + d;
    assert e[0] == x && forall i | 0 <= i < |d| :: e[i + 1] == d[i];
    if Precedes(e, a, b) {
      var i, j :| 0 <= i < j < |e| && e[i].0 == a && e[j].0 == b;
      assert e[j] == d[j - 1];
      if i > 0 { assert e[i] == d[i - 1]; }
    }
  }

  lemma {:induction false} PutPrecedes<K, V>(d: seq<(K, V)>, k: K, v: V, a: K, b: K)
    ensures Precedes(Put(d, k, v), a, b) <==> Precedes(d, a, b) || (!HasKey(d, k) && HasKey(d, a) && b == k)
    ensures HasKey(Put(d, k, v), a) <==> HasKey(d, a) || a == k
  {
    if d == [] {
      PrecedesAppend(d, (k, v), a, b);
    } else {
      var x, rest := d[0], d[1..];
      assert d == [x] + rest;
      PrecedesPrepend(x, rest, a, b);
      PrecedesPrepend(x, rest, b, a);
      PrecedesPrepend(x, rest, k, b);
      if x.0 == k {
        PrecedesPrepend((k, v), rest, a, b);
      } else {
        PutPrecedes(rest, k, v, a, b);
        PutPrecedes(rest, k, v, b, a);
        PrecedesPrepend(x, Put(rest, k, v), a, b);
      }
    }
  }

  lemma PopHasKey<K, V>(d: seq<(K, V)>, k: K, a: K)
    requires UniqueKeys(d)
    ensures HasKey(Pop(d, k), a) <==> a != k && HasKey(d, a)
  {
    PopSpec(d, k);
    GetHasKey(Pop(d, k), a);
    GetHasKey(d, a);
  }

  lemma FirstIsNoOther<K, V>(x: (K, V), rest: seq<(K, V)>)
    requires UniqueKeys([x] + rest)
    ensures UniqueKeys(rest) && !HasKey(rest, x.0)
  {
    var d := [x] + rest;
    assert d[0] == x && forall i | 0 <= i < |rest| :: rest[i] == d[i + 1];
  }

  lemma PopPrecedesStep<K, V>(x: (K, V), rest: seq<(K, V)>, k: K, a: K, b: K)
    requires UniqueKeys([x] + rest) && UniqueKeys(rest)
    requires Precedes(Pop(rest, k), a, b) <==> a != k && b != k && Precedes(rest, a, b)
    ensures Precedes(Pop([x] + rest, k), a, b) <==> a != k && b != k && Precedes([x] + rest, a, b)
  {
    PrecedesPrepend(x, rest, a, b);
    PutPrepend(x, rest, k, x.1);
    if x.0 == k {
      FirstIsNoOther(x, rest);
      PrecedesHasKeys(rest, a, b);
    } else {
      PopHasKey(rest, k, b);
      PrecedesPrepend(x, Pop(rest, k), a, b);
    }
  }

  lemma {:induction false} PopPrecedes<K, V>(d: seq<(K, V)>, k: K, a: K, b: K)
    requires UniqueKeys(d)
    ensures Precedes(Pop(d, k), a, b) <==> a != k && b != k && Precedes(d, a, b)
  {
    if d != [] {
      assert d == [d[0]] + d[1..];
      FirstIsNoOther(d[0], d[1..]);
      PopPrecedes(d[1..], k, a, b);
      PopPrecedesStep(d[0], d[1..], k, a, b);
    }
  }

  // Two dicts with the same entries in the same order are the same list.
  lemma {:induction false} OrderDetermines<K(!new), V(!new)>(s: seq<(K, V)>, t: seq<(K, V)>)
    requires UniqueKeys(s) && UniqueKeys(t) && forall e :: e in s <==> e in t
    requires forall a, b :: Precedes(s, a, b) <==> Precedes(t, a, b)
    ensures s == t
  {
    assert t != [] ==> t[0] in t;
    if s != [] {
      var init, x := s[..|s| - 1], s[|s| - 1];
      assert x in t;
      SameLast(s, t);
      var init' := t[..|t| - 1];
      assert s == init + [x] && t == init' + [x];
      forall e ensures e in init <==> e in init' {
        assert e in s <==> e in t;
        LastIsNoOther(init, x, e);
        LastIsNoOther(init', x, e);
      }
      forall a, b ensures Precedes(init, a, b) <==> Precedes(init', a, b) {
        assert Precedes(s, a, b) <==> Precedes(t, a, b);
        PrecedesBeforeLast(init, x, a, b);
        PrecedesBeforeLast(init', x, a, b);
      }
      OrderDetermines(init, init');
    }
  }

  lemma SameLast<K(!new), V(!new)>(s: seq<(K, V)>, t: seq<(K, V)>)
    requires UniqueKeys(s) && s != [] && s[|s| - 1] in t
    requires forall a, b :: Precedes(s, a, b) <==> Precedes(t, a, b)
    ensures t[|t| - 1] == s[|s| - 1]
  {
    var x, y := s[|s| - 1], t[|t| - 1];
    var j :| 0 <= j < |t| && t[j] == x;
    if j < |t| - 1 {
      assert Precedes(t, x.0, y.0);
    }
  }

  lemma LastIsNoOther<K, V>(init: seq<(K, V)>, x: (K, V), e: (K, V))
    requires UniqueKeys(init + [x])
    ensures e in init <==> e in init + [x] && e != x
    ensures UniqueKeys(init)
  {
    var s := init + [x];
    assert forall i | 0 <= i < |init| :: init[i] == s[i];
    if e in init {
      var i :| 0 <= i < |init| && init[i] == e;
      assert s[i].0 != s[|init|].0;
    }
  }

  lemma PrecedesBeforeLast<K, V>(init: seq<(K, V)>, x: (K, V), a: K, b: K)
    requires UniqueKeys(init + [x])
    ensures Precedes(init, a, b) <==> Precedes(init + [x], a, b) && b != x.0
  {
    PrecedesAppend(init, x, a, b);
    PrecedesHasKeys(init, a, b);
    var s := init + [x];
    assert forall i | 0 <= i < |init| :: init[i] == s[i] && s[i].0 != s[|init|].0;
  }
}
