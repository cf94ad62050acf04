/** Finite sums of the values of a map, the arithmetic behind every total in the pallet. */
module Sums {
  import opened Primitives

  ghost function Pick(m: map<AccountId, int>): (k: AccountId)
    requires m != map[]
    ensures k in m
  {
    assert m.Keys != {};
    var k :| k in m;
    k
  }

  ghost function Sum(m: map<AccountId, int>): int
    decreases |m|
  {
    if m == map[] then 0 else var k := Pick(m); m[k] + Sum(m - {k})
  }

  lemma {:induction false} SumRemove(m: map<AccountId, int>, k: AccountId)
    requires k in m
    ensures Sum(m) == m[k] + Sum(m - {k})
    decreases |m|
  {
    var p := Pick(m);
    if p != k {
      SumRemove(m - {p}, k);
      SumRemove(m - {k}, p);
      assert m - {p} - {k} == m - {k} - {p};
    }
  }

  /** Writing one key changes the sum by the new value less the old one. */
  lemma {:induction false} SumUpdate(m: map<AccountId, int>, k: AccountId, x: int)
    ensures Sum(m[k := x]) == Sum(m) + x - (if k in m then m[k] else 0)
  {
    SumRemove(m[k := x], k);
    assert m[k := x] - {k} == m - {k};
    if k in m {
      SumRemove(m, k);
    } else {
      assert m - {k} == m;
    }
  }

  /** A sum is monotone in its values, and in its keys when the extra values are not negative. */
  lemma {:induction false} SumMonotone(a: map<AccountId, int>, b: map<AccountId, int>)
    requires forall k :: k in a ==> k in b && a[k] <= b[k]
    requires forall k :: k in b && k !in a ==> 0 <= b[k]
    ensures Sum(a) <= Sum(b)
    decreases |b|
  {
    if b == map[] {
      assert a == map[];
    } else {
      var k := Pick(b);
      SumMonotone(a - {k}, b - {k});
      if k in a {
        SumRemove(a, k);
      } else {
        assert a - {k} == a;
      }
    }
  }

  lemma {:induction false} SumNonNegative(m: map<AccountId, int>)
    requires forall k :: k in m ==> 0 <= m[k]
    ensures 0 <= Sum(m)
  {
    SumMonotone(map[], m);
  }

  /** A sum of non-negative values bounds each of them; of positive values, it is zero only when empty. */
  lemma {:induction false} SumBoundsPart(m: map<AccountId, int>, k: AccountId)
    requires forall i :: i in m ==> 0 <= m[i]
    requires k in m
    ensures 0 <= m[k] <= Sum(m)
  {
    SumRemove(m, k);
    SumNonNegative(m - {k});
  }

  lemma {:induction false} SumEmpty(m: map<AccountId, int>)
    requires forall k :: k in m ==> 0 < m[k]
    ensures Sum(m) == 0 <==> m == map[]
  {
    if m != map[] {
      SumBoundsPart(m, Pick(m));
    }
  }

  lemma {:induction false} SumAdd(a: map<AccountId, int>, b: map<AccountId, int>, c: map<AccountId, int>)
    requires a.Keys == b.Keys == c.Keys
    requires forall k :: k in a ==> c[k] == a[k] + b[k]
    ensures Sum(c) == Sum(a) + Sum(b)
    decreases |a|
  {
    if a == map[] {
      assert b == map[] && c == map[];
    } else {
      var k := Pick(a);
      SumAdd(a - {k}, b - {k}, c - {k});
      SumRemove(b, k);
      SumRemove(c, k);
    }
  }

  lemma {:induction false} SumScale(a: map<AccountId, int>, x: int, c: map<AccountId, int>)
    requires a.Keys == c.Keys
    requires forall k :: k in a ==> c[k] == x * a[k]
    ensures Sum(c) == x * Sum(a)
    decreases |a|
  {
    if a == map[] {
      assert c == map[];
    } else {
      var k := Pick(a);
      SumScale(a - {k}, x, c - {k});
      SumRemove(c, k);
      assert x * (a[k] + Sum(a - {k})) == x * a[k] + x * Sum(a - {k});
    }
  }

  /** The sum of a constant. */
  lemma {:induction false} SumConstant(m: map<AccountId, int>, x: int)
    requires forall k :: k in m ==> m[k] == x
    ensures Sum(m) == x * |m|
    decreases |m|
  {
    if m != map[] {
      var k := Pick(m);
      SumConstant(m - {k}, x);
      assert |m - {k}| == |m| - 1 by { assert (m - {k}).Keys == m.Keys - {k}; }
      assert x * |m| == x * (|m| - 1) + x;
    }
  }

  lemma SumOne(k: AccountId, x: int)
    ensures Sum(map[k := x]) == x
  {
    assert map[k := x] == (map[])[k := x];
    SumUpdate(map[], k, x);
  }

  lemma SumTwo(k: AccountId, x: int, l: AccountId, y: int)
    requires k != l
    ensures Sum(map[k := x, l := y]) == x + y
  {
    SumOne(k, x);
    assert map[k := x, l := y] == (map[k := x])[l := y];
    SumUpdate(map[k := x], l, y);
  }
}
