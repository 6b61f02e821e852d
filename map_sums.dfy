/** Sums over the values of a map, independent of the order in which the map
    is walked. The source walks hash maps in an unspecified order; every
    statement about such a walk goes through `Total`. */
module MapSums {

  /** A non-empty set has an element. */
  lemma HasElement(s: set<int>)
    requires s != {}
    ensures exists x :: x in s
  {
    if forall x :: x !in s { assert false; }
  }

  /** The sum of `m`'s values at the timestamps `keys`, taken in no
      particular order. */
  ghost function SumOver(m: map<int, real>, keys: set<int>): real
    requires keys <= m.Keys
    decreases keys
  {
    if keys == {} then 0.0
    else
      HasElement(keys);
      var k :| k in keys;
      m[k] + SumOver(m, keys - {k})
  }

  /** The sum of all values of `m`. */
  ghost function Total(m: map<int, real>): real {
    SumOver(m, m.Keys)
  }

  /** Any key may be taken out first: the sum does not depend on the order. */
  lemma {:induction false} SumOverRemove(m: map<int, real>, keys: set<int>, k: int)
    requires keys <= m.Keys && k in keys
    ensures SumOver(m, keys) == m[k] + SumOver(m, keys - {k})
    decreases keys
  {
    var j :| j in keys && SumOver(m, keys) == m[j] + SumOver(m, keys - {j});
    if j != k {
      SumOverRemove(m, keys - {j}, k);
      SumOverRemove(m, keys - {k}, j);
      assert keys - {j} - {k} == keys - {k} - {j};
    }
  }

  /** The sum over `keys` depends only on the values at `keys`. */
  lemma {:induction false} SumOverFrame(m1: map<int, real>, m2: map<int, real>, keys: set<int>)
    requires keys <= m1.Keys && keys <= m2.Keys
    requires forall k :: k in keys ==> m1[k] == m2[k]
    ensures SumOver(m1, keys) == SumOver(m2, keys)
    decreases keys
  {
    if keys != {} {
      HasElement(keys);
      var k :| k in keys && SumOver(m1, keys) == m1[k] + SumOver(m1, keys - {k});
      SumOverRemove(m2, keys, k);
      SumOverFrame(m1, m2, keys - {k});
    }
  }

  /** Adding a fresh key adds its value to the sum. */
  lemma TotalInsert(m: map<int, real>, k: int, v: real)
    requires k !in m
    ensures Total(m[k := v]) == Total(m) + v
  {
    var m' := m[k := v];
    SumOverRemove(m', m'.Keys, k);
    assert m'.Keys - {k} == m.Keys;
    SumOverFrame(m', m, m.Keys);
  }

  /** Taking a key out subtracts its value from the sum. */
  lemma TotalRemove(m: map<int, real>, k: int)
    requires k in m
    ensures Total(m) == m[k] + Total(m - {k})
  {
    SumOverRemove(m, m.Keys, k);
    assert (m - {k}).Keys == m.Keys - {k};
    SumOverFrame(m, m - {k}, m.Keys - {k});
  }

  /** Overwriting a key replaces its value in the sum. */
  lemma TotalReplace(m: map<int, real>, k: int, v: real)
    requires k in m
    ensures Total(m[k := v]) == Total(m) - m[k] + v
  {
    var m' := m[k := v];
    SumOverRemove(m, m.Keys, k);
    SumOverRemove(m', m'.Keys, k);
    assert m'.Keys == m.Keys;
    SumOverFrame(m', m, m.Keys - {k});
  }

  /** The sum of a map with one entry is that entry. */
  lemma TotalSingleton(k: int, v: real)
    ensures Total(map[k := v]) == v
  {
    var empty: map<int, real> := map[];
    TotalInsert(empty, k, v);
    assert empty[k := v] == map[k := v];
  }

  /** `n` copies of `x` added together. */
  function Times(n: nat, x: real): real {
    if n == 0 then 0.0 else Times(n - 1, x) + x
  }

  /** Adding `n` copies of `x` is multiplying `x` by `n`. */
  lemma {:induction false} TimesIsProduct(n: nat, x: real)
    ensures Times(n, x) == n as real * x
  {
    if n > 0 {
      TimesIsProduct(n - 1, x);
      assert n as real * x == (n - 1) as real * x + x;
    }
  }

  /** Values at `keys` that are all at least `lo` sum to at least
      `|keys|` copies of `lo`. */
  lemma {:induction false} SumOverAtLeast(m: map<int, real>, keys: set<int>, lo: real)
    requires keys <= m.Keys
    requires forall k :: k in keys ==> lo <= m[k]
    ensures Times(|keys|, lo) <= SumOver(m, keys)
    decreases keys
  {
    if keys != {} {
      HasElement(keys);
      var k :| k in keys && SumOver(m, keys) == m[k] + SumOver(m, keys - {k});
      assert |keys - {k}| == |keys| - 1;
      SumOverAtLeast(m, keys - {k}, lo);
    }
  }

  /** Values at `keys` that are all at most `hi` sum to at most `|keys|`
      copies of `hi`. */
  lemma {:induction false} SumOverAtMost(m: map<int, real>, keys: set<int>, hi: real)
    requires keys <= m.Keys
    requires forall k :: k in keys ==> m[k] <= hi
    ensures SumOver(m, keys) <= Times(|keys|, hi)
    decreases keys
  {
    if keys != {} {
      HasElement(keys);
      var k :| k in keys && SumOver(m, keys) == m[k] + SumOver(m, keys - {k});
      assert |keys - {k}| == |keys| - 1;
      SumOverAtMost(m, keys - {k}, hi);
    }
  }

  /** Values that all lie in `[lo, hi]` sum to between `|m| * lo` and
      `|m| * hi`. */
  lemma TotalBounds(m: map<int, real>, lo: real, hi: real)
    requires forall k :: k in m ==> lo <= m[k] <= hi
    ensures |m| as real * lo <= Total(m) <= |m| as real * hi
  {
    SumOverAtLeast(m, m.Keys, lo);
    SumOverAtMost(m, m.Keys, hi);
    TimesIsProduct(|m|, lo);
    TimesIsProduct(|m|, hi);
  }

  /** Non-negative values have a non-negative sum. */
  lemma TotalNonNegative(m: map<int, real>)
    requires forall k :: k in m ==> 0.0 <= m[k]
    ensures 0.0 <= Total(m)
  {
    SumOverAtLeast(m, m.Keys, 0.0);
    TimesIsProduct(|m|, 0.0);
  }

  /** The sum of a sequence of values, first to last. */
  function SeqSum(s: seq<real>): real {
    if |s| == 0 then 0.0 else SeqSum(s[..|s| - 1]) + s[|s| - 1]
  }

  /** Appending a value adds it to the sum. */
  lemma SeqSumAppend(s: seq<real>, x: real)
    ensures SeqSum(s + [x]) == SeqSum(s) + x
  {
    assert (s + [x])[..|s|] == s;
  }
}
