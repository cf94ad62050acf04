/** The choice of validators is the heaviest possible one. */
module Selection {
  import opened Primitives
  import opened Sums
  import opened StakeSpec

  ghost function Of(pool: map<AccountId, int>, s: set<AccountId>): map<AccountId, int>
    requires s <= pool.Keys
  {
    map c | c in s :: pool[c]
  }

  ghost function Stake(pool: map<AccountId, int>, s: set<AccountId>): int
    requires s <= pool.Keys
  {
    Sum(Of(pool, s))
  }

  lemma StakeWithout(pool: map<AccountId, int>, s: set<AccountId>, c: AccountId)
    requires s <= pool.Keys && c in s
    ensures Stake(pool, s) == pool[c] + Stake(pool, s - {c})
  {
    SumRemove(Of(pool, s), c);
    assert Of(pool, s) - {c} == Of(pool, s - {c});
  }

  /** A set no larger than another, and nowhere heavier than it, has no more stake. */
  lemma {:induction false} Outweighs(pool: map<AccountId, int>, a: set<AccountId>, b: set<AccountId>)
    requires a <= pool.Keys && b <= pool.Keys && |a| <= |b|
    requires forall c :: c in pool ==> 0 <= pool[c]
    requires forall c, d :: c in a && d in b ==> pool[c] <= pool[d]
    ensures Stake(pool, a) <= Stake(pool, b)
    decreases |a|
  {
    if a == {} {
      assert Of(pool, a) == map[];
      SumNonNegative(Of(pool, b));
    } else {
      assert b != {};
      var c :| c in a;
      var d :| d in b;
      StakeWithout(pool, a, c);
      StakeWithout(pool, b, d);
      Outweighs(pool, a - {c}, b - {d});
    }
  }

  lemma {:induction false} StakeSplit(pool: map<AccountId, int>, s: set<AccountId>, t: set<AccountId>)
    requires s <= pool.Keys
    ensures Stake(pool, s) == Stake(pool, s * t) + Stake(pool, s - t)
    decreases |s|
  {
    if s == {} {
      assert s * t == {} && s - t == {};
    } else {
      var c :| c in s;
      StakeSplit(pool, s - {c}, t);
      StakeWithout(pool, s, c);
      if c in t {
        StakeWithout(pool, s * t, c);
        assert (s - {c}) * t == s * t - {c} && s - {c} - t == s - t;
      } else {
        StakeWithout(pool, s - t, c);
        assert (s - {c}) * t == s * t && s - {c} - t == s - t - {c};
      }
    }
  }

  /** Whatever the order of equal stakes, the choice fills the validator set as far as the pool
      goes, and no other choice that fits has a larger combined stake. */
  lemma SelectionIsOptimal(pool: map<AccountId, int>, chosen: set<AccountId>, other: set<AccountId>)
    requires BestChoice(pool, chosen)
    requires forall c :: c in pool ==> 0 <= pool[c]
    requires other <= pool.Keys && |other| <= cfg.maxValidators
    ensures |other| <= |chosen|
    ensures Stake(pool, other) <= Stake(pool, chosen)
  {
    SubsetSize(other, pool.Keys);
    StakeSplit(pool, other, chosen);
    StakeSplit(pool, chosen, other);
    assert other * chosen == chosen * other;
    SplitSize(other, chosen);
    SplitSize(chosen, other);
    Outweighs(pool, other - chosen, chosen - other);
  }

  /** An account of `s` with the largest stake there. */
  lemma {:induction false} HeaviestOf(pool: map<AccountId, int>, s: set<AccountId>) returns (c: AccountId)
    requires s != {} && s <= pool.Keys
    ensures c in s && forall d :: d in s ==> pool[d] <= pool[c]
    decreases |s|
  {
    var e :| e in s;
    var rest := s - {e};
    assert s == rest + {e};
    if rest == {} {
      c := e;
    } else {
      var d := HeaviestOf(pool, rest);
      c := if pool[e] < pool[d] then d else e;
    }
  }

  /** There is always a choice to make. */
  lemma {:induction false} HeaviestSet(pool: map<AccountId, int>, k: nat) returns (s: set<AccountId>)
    requires k <= |pool|
    ensures s <= pool.Keys && |s| == k
    ensures forall c, d :: c in s && d in pool && d !in s ==> pool[d] <= pool[c]
    decreases k
  {
    if k == 0 {
      s := {};
    } else {
      var t := HeaviestSet(pool, k - 1);
      SplitSize(pool.Keys, t);
      assert pool.Keys * t == t && |pool| == |pool.Keys|;
      var c := HeaviestOf(pool, pool.Keys - t);
      s := t + {c};
    }
  }

  lemma BestChoiceExists(pool: map<AccountId, int>)
    ensures exists chosen :: BestChoice(pool, chosen)
  {
    var k := if |pool| < cfg.maxValidators then |pool| else cfg.maxValidators;
    var chosen := HeaviestSet(pool, k);
    assert BestChoice(pool, chosen);
  }

  lemma SubsetSize(a: set<AccountId>, b: set<AccountId>)
    requires a <= b
    ensures |a| <= |b|
  {
    SplitSize(b, a);
    assert b * a == a;
  }

  lemma SplitSize(a: set<AccountId>, b: set<AccountId>)
    ensures |a| == |a * b| + |a - b|
  {
    assert a == (a * b) + (a - b);
  }
}
