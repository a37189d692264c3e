/** Sums over the values of a finite map, independent of any iteration order, and
    sizes of finite sets. */
module MapSums {

  ghost function Sum<K>(m: map<K, int>): int
    decreases |m|
  {
    if m == map[] then 0
    else
      assert m.Keys != {};
      var k :| k in m;
      m[k] + Sum(m - {k})
  }

  // Any key may be taken out first: the choice made inside Sum is irrelevant.
  lemma {:induction false} SumRemove<K>(m: map<K, int>, k: K)
    requires k in m
    ensures Sum(m) == m[k] + Sum(m - {k})
    decreases |m|
  {
    assert m.Keys != {};
    var c :| c in m && Sum(m) == m[c] + Sum(m - {c});
    if c != k {
      SumRemove(m - {c}, k);
      SumRemove(m - {k}, c);
      assert (m - {c}) - {k} == (m - {k}) - {c};
    }
  }

  lemma SumUpdate<K>(m: map<K, int>, k: K, v: int)
    ensures Sum(m[k := v]) == Sum(m) + v - (if k in m then m[k] else 0)
  {
    SumRemove(m[k := v], k);
    assert m[k := v] - {k} == m - {k};
    if k in m {
      SumRemove(m, k);
    } else {
      assert m - {k} == m;
    }
  }

  lemma {:induction false} SumNonNegative<K>(m: map<K, int>)
    requires forall k :: k in m ==> m[k] >= 0
    ensures Sum(m) >= 0
    ensures forall k :: k in m ==> m[k] <= Sum(m)
    decreases |m|
  {
    forall k | k in m
      ensures 0 <= m[k] <= Sum(m)
    {
      SumRemove(m, k);
      SumNonNegative(m - {k});
    }
    if m != map[] {
      assert m.Keys != {};
      var k :| k in m;
      assert 0 <= m[k] <= Sum(m);
    }
  }

  lemma {:induction false} SumZero<K>(m: map<K, int>)
    requires forall k :: k in m ==> m[k] == 0
    ensures Sum(m) == 0
    decreases |m|
  {
    if m != map[] {
      assert m.Keys != {};
      var k :| k in m;
      SumRemove(m, k);
      SumZero(m - {k});
    }
  }

  // A part of a map of non-negative numbers adds up to no more than the whole.
  lemma {:induction false} PartAtMostWhole<K>(part: map<K, int>, whole: map<K, int>)
    requires forall k :: k in part ==> k in whole && part[k] == whole[k]
    requires forall k :: k in whole ==> whole[k] >= 0
    ensures Sum(part) <= Sum(whole)
    decreases |whole|
  {
    if part.Keys == {} {
      SumZero(part);
      SumNonNegative(whole);
    } else {
      var k :| k in part;
      SumRemove(part, k);
      SumRemove(whole, k);
      PartAtMostWhole(part - {k}, whole - {k});
    }
  }

  lemma {:induction false} SubsetSize<T>(a: set<T>, b: set<T>)
    requires a <= b
    ensures |a| <= |b|
    decreases |a|
  {
    if a != {} {
      var x :| x in a;
      SubsetSize(a - {x}, b - {x});
    }
  }
}
