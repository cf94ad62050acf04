/** Fixed-point fractions: rounded multiplication and the share of a total.

    The fixed-point library is not part of the repository. `Mul` is round-to-nearest with exact
    halves going down, as the pallet's tests show; `FromRational` truncates to a whole number of
    parts per billion. */
module PerThing {
  import opened Primitives
  import opened Sums

  /** The integer nearest to y / BILLION, the lower one when two are equally near. */
  function Nearest(y: int): (r: int)
    ensures -BILLION <= 2 * (BILLION * r - y) < BILLION
  {
    (y + 499_999_999) / BILLION
  }

  /** The integer nearest to p * x / BILLION; never more than the whole. */
  function Mul(p: Perbill, x: int): (r: int)
    ensures 0 <= x ==> 0 <= r <= x
  {
    if 0 <= x then ProductBounds(p, x); Nearest(p * x) else Nearest(p * x)
  }

  lemma MulNearest(p: Perbill, x: int)
    ensures -BILLION <= 2 * (BILLION * Mul(p, x) - p * x) < BILLION
  {
  }

  lemma ProductBounds(p: Perbill, x: nat)
    ensures 0 <= p * x <= BILLION * x
  {
    assert 0 <= (BILLION - p) * x;
    assert (BILLION - p) * x == BILLION * x - p * x;
  }

  /** `r` is the integer nearest to p parts per billion of x, the lower one when two are equally near. */
  ghost predicate IsNearest(p: int, x: int, r: int) {
    -BILLION <= 2 * (BILLION * r - p * x) < BILLION
  }

  /** The nearest integer is unique: the property defines `Mul`. */
  lemma MulUnique(p: Perbill, x: int, r: int)
    ensures r == Mul(p, x) <==> IsNearest(p, x, r)
  {
    MulNearest(p, x);
  }

  lemma MulMonotone(p: Perbill, q: Perbill, x: int, y: int)
    requires p <= q && 0 <= x <= y
    ensures Mul(p, x) <= Mul(q, y)
  {
    assert p * x <= q * y by {
      assert p * x <= q * x;
      assert q * x <= q * y;
    }
  }

  lemma Division(n: nat, d: nat)
    requires 0 < d
    ensures n / d * d <= n < (n / d + 1) * d
    ensures 0 <= n / d <= n
  {
    Multiple(n / d, n % d, d);
  }

  lemma Multiple(q: nat, r: nat, d: nat)
    requires r < d
    ensures q * d <= d * q + r < (q + 1) * d
    ensures q <= d * q + r
  {
    assert q * d + d == (q + 1) * d;
    assert 0 <= q * (d - 1);
  }

  lemma MulLess(a: int, b: int, d: nat)
    requires a < b
    ensures a * d + d <= b * d
  {
    assert 0 <= (b - a - 1) * d;
    assert (b - a - 1) * d == b * d - a * d - d;
  }

  /** The share `p` out of `q`, in parts per billion, truncated; `p` is capped by `q` and `q` is at least 1. */
  function FromRational(p: int, q: int): (r: Perbill)
    ensures p <= 0 ==> r == 0
  {
    var d := Max(q, 1);
    var n := if p < 0 then 0 else if p < d then p else d;
    RationalBounds(n, d);
    n * BILLION / d
  }

  lemma RationalBounds(n: nat, d: nat)
    requires n <= d && 0 < d
    ensures var r := n * BILLION / d; 0 <= r <= BILLION && r * d <= n * BILLION < (r + 1) * d
  {
    var r := n * BILLION / d;
    Division(n * BILLION, d);
    if BILLION < r { MulLess(BILLION, r, d); }
  }

  lemma FromRationalBounds(p: int, q: int)
    requires 0 <= p <= q && 0 < q
    ensures FromRational(p, q) * q <= p * BILLION < (FromRational(p, q) + 1) * q
  {
    RationalBounds(p, q);
  }

  /** `r` is what `part` of `whole` comes to in parts per billion, truncated; a part is never less than
      nothing nor more than the whole, and the whole never less than one. */
  ghost predicate IsShare(part: int, whole: int, r: int) {
    var q := Max(whole, 1);
    var p := Min(Max(part, 0), q);
    r * q <= p * BILLION < (r + 1) * q
  }

  /** The property defines `FromRational`. */
  lemma ShareUnique(part: int, whole: int, r: int)
    ensures r == FromRational(part, whole) <==> IsShare(part, whole, r)
  {
    var q := Max(whole, 1);
    var p := Min(Max(part, 0), q);
    RationalBounds(p, q);
    var s := FromRational(part, whole);
    assert s * q <= p * BILLION < (s + 1) * q;
    if r < s {
      MulLess(r, s, q);
      Distribute(r, 1, q);
    } else if s < r {
      MulLess(s, r, q);
      Distribute(s, 1, q);
    }
  }

  ghost function Shares(m: map<AccountId, int>, q: int): map<AccountId, int> {
    map k | k in m :: FromRational(m[k], q)
  }

  /** Shares of one denominator whose numerators sum to at most it sum to at most one. */
  lemma SharesFit(m: map<AccountId, int>, extra: int, q: int)
    requires 0 <= extra && extra + Sum(m) <= q
    requires forall k :: k in m ==> 0 <= m[k]
    ensures FromRational(extra, q) + Sum(Shares(m, q)) <= BILLION
  {
    SumNonNegative(m);
    forall k | k in m ensures m[k] <= Sum(m) {
      SumBoundsPart(m, k);
    }
    if q <= 0 {
      SumConstant(Shares(m, q), 0);
    } else {
      SharesScaled(m, q);
      FromRationalBounds(extra, q);
      PartsFit(FromRational(extra, q), Sum(Shares(m, q)), extra, Sum(m), q);
    }
  }

  lemma PartsFit(first: int, rest: int, extra: int, sum: int, q: nat)
    requires first * q <= extra * BILLION && rest * q <= sum * BILLION
    requires extra + sum <= q && 0 < q
    ensures first + rest <= BILLION
  {
    Distribute(first, rest, q);
    if BILLION < first + rest {
      MulLess(BILLION, first + rest, q);
    }
  }

  lemma {:induction false} SharesScaled(m: map<AccountId, int>, q: int)
    requires 0 < q
    requires forall k :: k in m ==> 0 <= m[k] <= q
    ensures Sum(Shares(m, q)) * q <= Sum(m) * BILLION
    decreases |m|
  {
    if m == map[] {
      assert Shares(m, q) == map[];
    } else {
      var k := Pick(m);
      SharesScaled(m - {k}, q);
      SharesStep(m, k, q);
      hide Shares, FromRational, Sum;
      AddScaledDown(m[k], Sum(m - {k}), FromRational(m[k], q), Sum(Shares(m - {k}, q)), q) by {
        FromRationalBounds(m[k], q);
      }
    }
  }

  lemma AddScaledDown(a: int, b: int, x: int, y: int, q: int)
    requires x * q <= a * BILLION && y * q <= b * BILLION
    ensures (x + y) * q <= (a + b) * BILLION
  {
    Distribute(x, y, q);
  }

  /** Each truncation loses less than one part per billion of the denominator. */
  lemma {:induction false} SharesScaledLow(m: map<AccountId, int>, q: int)
    requires 0 < q
    requires forall k :: k in m ==> 0 <= m[k] <= q
    ensures Sum(m) * BILLION <= (Sum(Shares(m, q)) + |m|) * q
    decreases |m|
  {
    if m == map[] {
      assert Shares(m, q) == map[];
    } else {
      var k := Pick(m);
      SharesScaledLow(m - {k}, q);
      SharesStep(m, k, q);
      hide Shares, FromRational, Sum;
      AddScaledUp(m[k], Sum(m - {k}), FromRational(m[k], q) + 1, Sum(Shares(m - {k}, q)) + |m - {k}|, q) by {
        FromRationalBounds(m[k], q);
      }
    }
  }

  lemma SharesStep(m: map<AccountId, int>, k: AccountId, q: int)
    requires k in m
    ensures Sum(Shares(m, q)) == FromRational(m[k], q) + Sum(Shares(m - {k}, q))
    ensures Sum(m) == m[k] + Sum(m - {k}) && |m| == 1 + |m - {k}|
  {
    hide FromRational, Sum;
    SumRemove(m, k);
    SumRemove(Shares(m, q), k);
    assert Shares(m, q) - {k} == Shares(m - {k}, q);
    assert m.Keys == (m - {k}).Keys + {k};
  }

  lemma AddScaledUp(a: int, b: int, x: int, y: int, q: int)
    requires a * BILLION <= x * q && b * BILLION <= y * q
    ensures (a + b) * BILLION <= (x + y) * q
  {
    Distribute(x, y, q);
  }

  lemma Distribute(a: int, b: int, q: int)
    ensures (a + b) * q == a * q + b * q
  {
  }

  /** The least whole number that is at least p% of n. */
  function MulCeil(p: Percent, n: nat): (r: nat)
    ensures r <= n
    ensures p == 100 ==> r == n
    ensures r == 0 <==> p == 0 || n == 0
  {
    MulCeilBounds(p, n);
    (p * n + 99) / 100
  }

  lemma MulCeilBounds(p: Percent, n: nat)
    ensures var r := (p * n + 99) / 100;
      && 100 * r - 100 < p * n <= 100 * r
      && 0 <= r <= n && (p == 100 ==> r == n) && (r == 0 <==> p == 0 || n == 0)
  {
    PercentOf(p, n);
    CeilBounds(p * n, n);
  }

  lemma PercentOf(p: Percent, n: nat)
    ensures 0 <= p * n <= 100 * n
    ensures p != 0 && n != 0 ==> 0 < p * n
    ensures p == 0 || n == 0 ==> p * n == 0
  {
    assert 0 <= (100 - p) * n;
    assert (100 - p) * n == 100 * n - p * n;
  }

  lemma CeilBounds(y: nat, n: nat)
    requires y <= 100 * n
    ensures var r := (y + 99) / 100;
      && 100 * r - 100 < y <= 100 * r
      && 0 <= r <= n && (y == 100 * n ==> r == n) && (r == 0 <==> y == 0)
  {
  }

  /** The property defines `MulCeil`. */
  lemma MulCeilUnique(p: Percent, n: nat, r: int)
    ensures r == MulCeil(p, n) <==> 100 * r - 100 < p * n <= 100 * r
  {
    MulCeilBounds(p, n);
  }
}
