/** The arithmetic of the payout: however points, fees and stakes fall, one payment mints at most
    the round's issuance plus half a unit for every share that is rounded. */
module Payout {
  import opened Primitives
  import opened PerThing
  import opened Sums
  import opened Currency
  import opened StakeSpec
  import opened Books
  import opened Solvency

  /** A snapshot whose parts add up. */
  ghost predicate SnapshotSound(x: Snapshot) {
    && 0 <= x.bond
    && (forall n :: n in x.nominators ==> 0 <= x.nominators[n])
    && x.total == x.bond + Sum(x.nominators)
  }

  /** How many rounded shares a snapshot's reward is split into after the author's own share. */
  function SplitShares(x: Snapshot): nat {
    if x.nominators == map[] then 0 else 1 + |x.nominators|
  }

  ghost function Products(parts: map<AccountId, int>, x: int): map<AccountId, int>
    requires forall k :: k in parts ==> 0 <= parts[k] <= BILLION
  {
    map k | k in parts :: Mul(parts[k], x)
  }

  /** Rounding each of n products adds at most n halves to their sum. */
  lemma {:induction false} ProductsBound(parts: map<AccountId, int>, x: nat)
    requires forall k :: k in parts ==> 0 <= parts[k] <= BILLION
    ensures 2 * BILLION * Sum(Products(parts, x)) <= 2 * (Sum(parts) * x) + BILLION * |parts|
    decreases |parts|
  {
    if parts == map[] {
      assert Products(parts, x) == map[];
    } else {
      var k := Pick(parts);
      var rest := parts - {k};
      ProductsBound(rest, x);
      ProductsStep(parts, x, k);
      hide Products, Mul, Sum;
      ProductsSum(parts[k], Sum(rest), Mul(parts[k], x), Sum(Products(rest, x)), x, |rest|) by { MulNearest(parts[k], x); }
    }
  }

  lemma ProductsSum(p: int, sum: int, product: int, products: int, x: nat, n: nat)
    requires 2 * (BILLION * product - p * x) < BILLION
    requires 2 * BILLION * products <= 2 * (sum * x) + BILLION * n
    ensures 2 * BILLION * (product + products) <= 2 * ((p + sum) * x) + BILLION * (n + 1)
  {
    Distribute(p, sum, x);
  }

  lemma ProductsStep(parts: map<AccountId, int>, x: int, k: AccountId)
    requires k in parts && forall k :: k in parts ==> 0 <= parts[k] <= BILLION
    ensures Sum(Products(parts, x)) == Mul(parts[k], x) + Sum(Products(parts - {k}, x))
    ensures |parts| == |parts - {k}| + 1
  {
    hide Mul;
    SumRemove(Products(parts, x), k);
    assert Products(parts, x) - {k} == Products(parts - {k}, x);
    assert parts.Keys == (parts - {k}).Keys + {k};
  }

  /** Products whose parts sum to at most one sum to at most the whole, up to the rounding. */
  lemma FittingProducts(first: Perbill, parts: map<AccountId, int>, x: nat)
    requires forall k :: k in parts ==> 0 <= parts[k] <= BILLION
    requires first + Sum(parts) <= BILLION
    ensures 2 * (Mul(first, x) + Sum(Products(parts, x))) <= 2 * x + 1 + |parts|
    ensures 2 * Sum(Products(parts, x)) <= 2 * x + |parts|
  {
    ProductsBound(parts, x);
    SumNonNegative(parts);
    Distribute(first, Sum(parts), x);
    var sum := Sum(parts);
    PartOfWhole(first + sum, x);
    PartOfWhole(sum, x);
    hide Sum, Products, Mul;
    MulNearest(first, x);
  }

  lemma PartOfWhole(p: int, x: nat)
    requires p <= BILLION
    ensures p * x <= BILLION * x
  {
    assert 0 <= (BILLION - p) * x;
    Distribute(p, BILLION - p, x);
  }

  lemma CommissionBound(x: Snapshot, due: nat)
    ensures 0 <= Commission(x, due) <= due
  {
    hide Mul;
  }

  /** What is minted because `v` authored blocks worth `due`, at most `due` and the rounding. */
  lemma AuthorMintBound(l: Ledger, x: Snapshot, v: AccountId, due: nat)
    requires SnapshotSound(x)
    ensures 2 * MintedFor(l, x, v, due) <= 2 * due + SplitShares(x)
  {
    hide Mul, FromRational, Commission, Sum;
    var minted := NominatorsMinted(l, x, due);
    CommissionBound(x, due);
    if x.nominators == map[] {
      assert minted == map[];
      SumConstant(minted, 0);
    } else {
      SplitMintBound(l, x, due);
    }
  }

  lemma SplitMintBound(l: Ledger, x: Snapshot, due: nat)
    requires SnapshotSound(x) && 0 <= Commission(x, due) <= due
    ensures var base := due - Commission(x, due);
      && 0 <= Mul(FromRational(x.bond, x.total), base)
      && 2 * (Mul(FromRational(x.bond, x.total), base) + Sum(NominatorsMinted(l, x, due))) <= 2 * base + 1 + |x.nominators|
  {
    hide Mul, FromRational, Commission, Sum, SnapshotSound, Products, NominatorsMinted, Shares;
    var base: nat := due - Commission(x, due);
    SnapshotFits(x);
    FittingProducts(FromRational(x.bond, x.total), Shares(x.nominators, x.total), base);
    NominatorsMintedBound(l, x, due);
  }

  lemma SnapshotFits(x: Snapshot)
    requires SnapshotSound(x)
    ensures var shares := Shares(x.nominators, x.total);
      && FromRational(x.bond, x.total) + Sum(shares) <= BILLION
      && |shares| == |x.nominators|
      && forall n :: n in shares ==> 0 <= shares[n] <= BILLION
  {
    hide FromRational, Sum;
    SharesFit(x.nominators, x.bond, x.total);
    assert Shares(x.nominators, x.total).Keys == x.nominators.Keys;
  }

  lemma NominatorsMintedBound(l: Ledger, x: Snapshot, due: nat)
    requires 0 <= Commission(x, due) <= due
    ensures Sum(NominatorsMinted(l, x, due)) <= Sum(Products(Shares(x.nominators, x.total), due - Commission(x, due)))
  {
    hide Mul, FromRational, Commission, Sum;
    var minted, products := NominatorsMinted(l, x, due), Products(Shares(x.nominators, x.total), due - Commission(x, due));
    assert minted.Keys == products.Keys;
    forall n | n in minted ensures minted[n] <= products[n] {
      assert products[n] == NominatorDue(x, due, n);
    }
    SumMonotone(minted, products);
  }

  // The least that is minted.

  /** Rounding each of n products takes at most n halves from their sum. */
  lemma {:induction false} ProductsLow(parts: map<AccountId, int>, x: nat)
    requires forall k :: k in parts ==> 0 <= parts[k] <= BILLION
    ensures 2 * (Sum(parts) * x) <= 2 * BILLION * Sum(Products(parts, x)) + BILLION * |parts|
    decreases |parts|
  {
    if parts == map[] {
      assert Products(parts, x) == map[];
    } else {
      var k := Pick(parts);
      var rest := parts - {k};
      ProductsLow(rest, x);
      ProductsStep(parts, x, k);
      hide Products, Mul, Sum;
      ProductsSumLow(parts[k], Sum(rest), Mul(parts[k], x), Sum(Products(rest, x)), x, |rest|) by { MulNearest(parts[k], x); }
    }
  }

  lemma ProductsSumLow(p: int, sum: int, product: int, products: int, x: nat, n: nat)
    requires -BILLION <= 2 * (BILLION * product - p * x)
    requires 2 * (sum * x) <= 2 * BILLION * products + BILLION * n
    ensures 2 * ((p + sum) * x) <= 2 * BILLION * (product + products) + BILLION * (n + 1)
  {
    Distribute(p, sum, x);
  }

  lemma SharesAlmostWhole(x: Snapshot)
    requires SnapshotSound(x) && 0 < x.total
    ensures BILLION <= FromRational(x.bond, x.total) + Sum(Shares(x.nominators, x.total)) + 1 + |x.nominators|
  {
    var m, q := x.nominators, x.total;
    SumNonNegative(m);
    forall k | k in m ensures m[k] <= Sum(m) {
      SumBoundsPart(m, k);
    }
    SharesScaledLow(m, q);
    FromRationalBounds(x.bond, q);
    hide Shares, FromRational, Sum;
    var all := FromRational(x.bond, q) + 1 + (Sum(Shares(m, q)) + |m|);
    Distribute(FromRational(x.bond, q) + 1, Sum(Shares(m, q)) + |m|, q);
    if all < BILLION {
      MulLess(all, BILLION, q);
    }
  }

  /** Not minting the parts that are negligible takes at most one deposit from each. */
  lemma NominatorsMintedLow(l: Ledger, x: Snapshot, due: nat)
    requires x.nominators.Keys <= l.accounts.Keys && 0 <= Commission(x, due) <= due
    ensures Sum(Products(Shares(x.nominators, x.total), due - Commission(x, due)))
            <= Sum(NominatorsMinted(l, x, due)) + cfg.existentialDeposit * |x.nominators|
  {
    hide Mul, FromRational, Commission, Sum;
    var minted, products := NominatorsMinted(l, x, due), Products(Shares(x.nominators, x.total), due - Commission(x, due));
    assert minted.Keys == products.Keys == x.nominators.Keys;
    var deposits := map n | n in x.nominators :: cfg.existentialDeposit as int;
    var raised := map n | n in x.nominators :: minted[n] + deposits[n];
    forall n | n in x.nominators ensures products[n] <= raised[n] {
      assert products[n] == NominatorDue(x, due, n);
    }
    SumMonotone(products, raised);
    SumAdd(minted, deposits, raised);
    SumConstant(deposits, cfg.existentialDeposit);
    assert deposits.Keys == x.nominators.Keys;
  }

  lemma SplitLow(first: int, rest: int, own: int, others: int, base: nat, k: nat)
    requires BILLION <= first + rest + k
    requires 2 * (first * base) <= 2 * (BILLION * own) + BILLION
    requires 2 * (rest * base) <= 2 * BILLION * others + BILLION * (k - 1)
    ensures 2 * BILLION * (base - own - others) <= k * (2 * base + BILLION)
  {
    Distribute(first, rest, base);
    Distribute(first + rest, k, base);
    PartOfWhole(BILLION - (first + rest + k), base);
    assert 0 <= (first + rest + k - BILLION) * base;
    Distribute(first + rest + k, -BILLION, base);
    assert k * (2 * base + BILLION) == 2 * (k * base) + k * BILLION;
  }

  /** When everybody listed exists, what is minted for one author's blocks falls short of its due by
      no more than the truncation, the rounding and one existential deposit for each share. */
  lemma AuthorMintLow(l: Ledger, x: Snapshot, v: AccountId, due: nat)
    requires SnapshotSound(x) && 0 < x.total && cfg.existentialDeposit < due
    requires v in l.accounts && x.nominators.Keys <= l.accounts.Keys
    ensures 2 * BILLION * (due - MintedFor(l, x, v, due))
            <= SplitShares(x) * (2 * due + BILLION + 2 * BILLION * cfg.existentialDeposit)
  {
    hide Mul, FromRational, Commission, Sum, SnapshotSound;
    CommissionBound(x, due);
    if x.nominators == map[] {
      assert NominatorsMinted(l, x, due) == map[];
      SumConstant(NominatorsMinted(l, x, due), 0);
    } else {
      SplitMintLow(l, x, v, due);
    }
  }

  lemma SplitMintLow(l: Ledger, x: Snapshot, v: AccountId, due: nat)
    requires SnapshotSound(x) && 0 < x.total && x.nominators != map[] && 0 <= Commission(x, due) <= due
    requires v in l.accounts && x.nominators.Keys <= l.accounts.Keys
    ensures 2 * BILLION * (due - MintedFor(l, x, v, due))
            <= (1 + |x.nominators|) * (2 * due + BILLION + 2 * BILLION * cfg.existentialDeposit)
  {
    hide Mul, FromRational, Commission, Sum, SnapshotSound, NominatorsMinted, Products, Shares;
    var c, k, first := Commission(x, due), 1 + |x.nominators|, FromRational(x.bond, x.total);
    var base: nat := due - c;
    SnapshotFits(x);
    var own, parts := Mul(first, base), Sum(Products(Shares(x.nominators, x.total), base));
    NominatorsMintedLow(l, x, due);
    var minted, others := Minted(l, v, own + c), Sum(NominatorsMinted(l, x, due));
    assert own + c <= minted + cfg.existentialDeposit;
    assert MintedFor(l, x, v, due) == minted + others;
    hide MintedFor, Minted;
    SharesAlmostWhole(x);
    MulNearest(first, base);
    ProductsLow(Shares(x.nominators, x.total), base);
    SplitLow(first, Sum(Shares(x.nominators, x.total)), own, parts, base, k);
    LowTogether(due, c, own, parts, minted, others, k);
  }

  lemma LowTogether(due: nat, c: nat, own: int, parts: int, minted: int, others: int, k: nat)
    requires c <= due && 1 <= k
    requires 2 * BILLION * (due - c - own - parts) <= k * (2 * (due - c) + BILLION)
    requires own + c <= minted + cfg.existentialDeposit
    requires parts <= others + cfg.existentialDeposit * (k - 1)
    ensures 2 * BILLION * (due - (minted + others)) <= k * (2 * due + BILLION + 2 * BILLION * cfg.existentialDeposit)
  {
    var e := cfg.existentialDeposit;
    assert e * (k - 1) + e == e * k;
    assert due - (minted + others) <= (due - c - own - parts) + e * k;
    assert k * (2 * due + BILLION + 2 * BILLION * e) == k * (2 * (due - c) + BILLION) + 2 * (k * c) + 2 * BILLION * (e * k);
    assert 0 <= k * c;
  }

  ghost function Restrict(m: Awards, s: set<AccountId>): map<AccountId, int> {
    map k | k in m && k in s :: m[k]
  }

  /** The author's own share and the shares of its split, over all payees. */
  ghost function RoundedShares(exposures: Exposures, payees: set<AccountId>): map<AccountId, int> {
    map v | v in payees :: 1 + SplitShares(Exposure(exposures, v))
  }

  ghost function Splits(exposures: Exposures, payees: set<AccountId>): (m: map<AccountId, int>)
    ensures m.Keys == payees
  {
    map v | v in payees :: SplitShares(Exposure(exposures, v))
  }

  ghost function Dues(awards: Awards, total: nat, issuance: int, payees: set<AccountId>): map<AccountId, int>
    requires payees <= awards.Keys
  {
    map v | v in payees :: AmountDue(awards[v], total, issuance)
  }

  lemma DuesBound(awards: Awards, total: nat, issuance: nat, payees: set<AccountId>)
    requires payees <= awards.Keys && Sum(awards) <= total
    ensures 2 * Sum(Dues(awards, total, issuance, payees)) <= 2 * issuance + |payees|
  {
    hide Sum, Mul, FromRational;
    var points := Restrict(awards, payees);
    assert points.Keys == payees;
    SumMonotone(points, awards);
    SharesFit(points, 0, total);
    DuesAreProducts(awards, total, issuance, payees);
    hide Shares, Restrict, Products, Dues;
    FittingProducts(0, Shares(points, total), issuance);
  }

  lemma DuesAreProducts(awards: Awards, total: nat, issuance: nat, payees: set<AccountId>)
    requires payees <= awards.Keys
    ensures var shares := Shares(Restrict(awards, payees), total);
      && shares.Keys == payees && |shares| == |payees|
      && (forall k :: k in shares ==> 0 <= shares[k] <= BILLION)
      && Dues(awards, total, issuance, payees) == Products(shares, issuance)
  {
    hide Mul, FromRational;
    var shares := Shares(Restrict(awards, payees), total);
    assert shares.Keys == payees;
  }

  /** Twice the amount minted, against twice the issuance and one for every rounded share. */
  lemma PayoutBound(l: Ledger, exposures: Exposures, awards: Awards, total: nat, issuance: nat, payees: set<AccountId>)
    requires payees <= awards.Keys && Sum(awards) <= total
    requires forall v :: v in payees ==> SnapshotSound(Exposure(exposures, v))
    ensures 2 * TotalMinted(l, exposures, awards, total, issuance, payees)
            <= 2 * issuance + Sum(RoundedShares(exposures, payees))
  {
    hide Sum, Mints, Dues, Splits, RoundedShares, SnapshotSound;
    MintsBound(l, exposures, awards, total, issuance, payees);
    DuesBound(awards, total, issuance, payees);
    SharesCounted(exposures, payees);
  }

  lemma MintsBound(l: Ledger, exposures: Exposures, awards: Awards, total: nat, issuance: nat, payees: set<AccountId>)
    requires payees <= awards.Keys
    requires forall v :: v in payees ==> SnapshotSound(Exposure(exposures, v))
    ensures 2 * Sum(Mints(l, exposures, awards, total, issuance, payees))
            <= 2 * Sum(Dues(awards, total, issuance, payees)) + Sum(Splits(exposures, payees))
  {
    hide MintedFor, SplitShares, SnapshotSound, Sum, AmountDue, Exposure;
    var mints, dues, split := Mints(l, exposures, awards, total, issuance, payees),
                              Dues(awards, total, issuance, payees), Splits(exposures, payees);
    forall v | v in payees ensures 2 * mints[v] <= 2 * dues[v] + split[v] {
      DueNonNegative(awards[v], total, issuance);
      AuthorMintBound(l, Exposure(exposures, v), v, dues[v]);
    }
    SumTwice(mints, dues, split);
  }

  lemma DueNonNegative(points: nat, total: nat, issuance: nat)
    ensures 0 <= AmountDue(points, total, issuance) <= issuance
  {
  }

  lemma SharesCounted(exposures: Exposures, payees: set<AccountId>)
    ensures Sum(RoundedShares(exposures, payees)) == |payees| + Sum(Splits(exposures, payees))
  {
    hide Sum, SplitShares, Exposure;
    SumOnes(Splits(exposures, payees), RoundedShares(exposures, payees));
  }

  lemma SumTwice(a: map<AccountId, int>, b: map<AccountId, int>, c: map<AccountId, int>)
    requires a.Keys == b.Keys == c.Keys
    requires forall k :: k in a ==> 2 * a[k] <= 2 * b[k] + c[k]
    ensures 2 * Sum(a) <= 2 * Sum(b) + Sum(c)
  {
    var a2 := map k | k in a :: 2 * a[k];
    var b2 := map k | k in b :: 2 * b[k];
    var d := map k | k in b :: b2[k] + c[k];
    SumScale(a, 2, a2);
    SumScale(b, 2, b2);
    SumAdd(b2, c, d);
    SumMonotone(a2, d);
  }

  lemma SumOnes(a: map<AccountId, int>, b: map<AccountId, int>)
    requires a.Keys == b.Keys
    requires forall k :: k in a ==> b[k] == 1 + a[k]
    ensures Sum(b) == |a.Keys| + Sum(a)
  {
    var ones := map k | k in a :: 1;
    assert ones.Keys == a.Keys;
    SumConstant(ones, 1);
    SumAdd(ones, a, b);
  }

  /** Payment leaves what the pallet holds and every reserve as they were. */
  lemma PayStakersSolvent(s: State, next: nat)
    requires Solvent(s)
    ensures Solvent(PayStakers(s, next))
  {
    hide Sound, Sum, Totals, Received, TotalMinted, Owed;
    var s' := PayStakers(s, next);
    forall a ensures Held(s'.ledger, a) == Held(s.ledger, a) && Reserved(s'.ledger, a) == Reserved(s.ledger, a) {
    }
  }
}
