/** What becomes of the bond that a merging switch leaves behind: switched on to a third candidate it is
    stake that nothing backs, and leaving then gives back more than was ever reserved for it. */
module StaleStake {
  import opened Primitives
  import opened Sums
  import opened Currency
  import opened StakeSpec
  import opened Books
  import opened Solvency
  import opened OtherReserves

  /** The bonds of `n` with `from` and `to`, in both records, and none with `on`. */
  ghost predicate TwoBonds(c: Candidates, ns: Nominators, n: AccountId, from: AccountId, to: AccountId, on: AccountId) {
    && from != to && on in c && !Backs(c, on, n) && !Nominates(ns, n, on)
    && Backs(c, from, n) && Nominates(ns, n, from) && c[from].nominators[n] == ns[n].nominations[from] > 0
    && Backs(c, to, n) && Nominates(ns, n, to) && c[to].nominators[n] == ns[n].nominations[to] > 0
  }

  lemma SoundBonds(s: State, n: AccountId, from: AccountId, to: AccountId, on: AccountId)
    requires Solvent(s) && from != to && Nominates(s.nominators, n, from) && Nominates(s.nominators, n, to)
    requires on in s.candidates && !Nominates(s.nominators, n, on)
    ensures TwoBonds(s.candidates, s.nominators, n, from, to, on)
  {
    ExistingBond(s, from, n);
    ExistingBond(s, to, n);
    hide LocalSums, Floors, Roles, Covered;
    assert !Backs(s.candidates, on, n);
  }

  // The two switches.

  /** The records after the merge: the old bond stays in the nominator's record only. */
  ghost predicate Merged(c: Candidates, ns: Nominators, c': Candidates, ns': Nominators,
                         n: AccountId, from: AccountId, to: AccountId)
    requires from in c && to in c && Nominates(ns, n, from) && Nominates(ns, n, to)
    requires 0 < ns[n].nominations[from] && 0 < ns[n].nominations[to]
  {
    var a, b := ns[n].nominations[from], ns[n].nominations[to];
    && c' == c[from := Backed(c[from], n, 0)][to := Backed(c[to], n, a + b)]
    && ns' == ns[n := Nominator(ns[n].nominations[to := a + b], ns[n].total)]
  }

  lemma MergeWrites(s: State, n: AccountId, from: AccountId, to: AccountId, on: AccountId)
    requires TwoBonds(s.candidates, s.nominators, n, from, to, on)
    ensures var o := SwitchNomination(s, n, from, to);
      o.result.Ok? && Merged(s.candidates, s.nominators, o.state.candidates, o.state.nominators, n, from, to) && o.state.ledger == s.ledger
  {
    var s' := SwitchNomination(s, n, from, to).state;
    var a, b := s.nominators[n].nominations[from], s.nominators[n].nominations[to];
    assert s'.candidates[from] == Backed(s.candidates[from], n, 0);
    assert s'.candidates[to] == Backed(s.candidates[to], n, a + b);
  }

  /** A bond that only the nominator's record has is inserted into the third candidate's. */
  lemma SwitchOnWrites(s: State, n: AccountId, from: AccountId, on: AccountId)
    requires Nominates(s.nominators, n, from) && !Nominates(s.nominators, n, on) && 0 < s.nominators[n].nominations[from]
    requires from in s.candidates && on in s.candidates && !Backs(s.candidates, from, n) && !Backs(s.candidates, on, n)
    ensures var x, o := s.nominators[n], SwitchNomination(s, n, from, on);
      var a := x.nominations[from];
      && o.result.Ok?
      && o.state.candidates == s.candidates[on := Backed(s.candidates[on], n, a)]
      && o.state.nominators == s.nominators[n := Nominator((x.nominations - {from})[on := a], x.total)]
      && o.state.ledger == s.ledger
  {
    var s' := SwitchNomination(s, n, from, on).state;
    assert s.candidates[from].nominators - {n} == s.candidates[from].nominators;
    assert s'.candidates[from] == s.candidates[from];
    assert s'.candidates[on] == Backed(s.candidates[on], n, s.nominators[n].nominations[from]);
  }

  function BondsAfter(m: map<AccountId, int>, from: AccountId, to: AccountId, on: AccountId): map<AccountId, int>
    requires from in m && to in m
  {
    (m[to := m[from] + m[to]] - {from})[on := m[from]]
  }

  ghost predicate SwitchedOn(c: Candidates, ns: Nominators, c': Candidates, ns': Nominators,
                             n: AccountId, from: AccountId, to: AccountId, on: AccountId)
    requires TwoBonds(c, ns, n, from, to, on)
  {
    var a, b := ns[n].nominations[from], ns[n].nominations[to];
    && c' == c[from := Backed(c[from], n, 0)][to := Backed(c[to], n, a + b)][on := Backed(c[on], n, a)]
    && ns' == ns[n := Nominator(BondsAfter(ns[n].nominations, from, to, on), ns[n].total)]
  }

  lemma MergedBonds(c: Candidates, ns: Nominators, c': Candidates, ns': Nominators,
                    n: AccountId, from: AccountId, to: AccountId, on: AccountId)
    requires TwoBonds(c, ns, n, from, to, on) && Merged(c, ns, c', ns', n, from, to)
    ensures Nominates(ns', n, from) && !Nominates(ns', n, on) && ns'[n].nominations[from] == ns[n].nominations[from] > 0
    ensures from in c' && on in c' && !Backs(c', from, n) && !Backs(c', on, n) && c'[on] == c[on]
    ensures var x := ns'[n];
      var a := x.nominations[from];
      SwitchedOn(c, ns, c'[on := Backed(c'[on], n, a)], ns'[n := Nominator((x.nominations - {from})[on := a], x.total)], n, from, to, on)
  {
  }

  /** The state after the switch from `from` into `to`, and then from `from` to `on`. */
  function SwitchedTwice(s: State, n: AccountId, from: AccountId, to: AccountId, on: AccountId): State {
    SwitchNomination(SwitchNomination(s, n, from, to).state, n, from, on).state
  }

  lemma SwitchesTwice(s: State, n: AccountId, from: AccountId, to: AccountId, on: AccountId)
    requires TwoBonds(s.candidates, s.nominators, n, from, to, on)
    ensures SwitchNomination(SwitchNomination(s, n, from, to).state, n, from, on).result.Ok?
    ensures var s' := SwitchedTwice(s, n, from, to, on);
      SwitchedOn(s.candidates, s.nominators, s'.candidates, s'.nominators, n, from, to, on) && s'.ledger == s.ledger
  {
    MergeWrites(s, n, from, to, on);
    hide SwitchNomination, SwitchedOn;
    var s1 := SwitchNomination(s, n, from, to).state;
    MergedBonds(s.candidates, s.nominators, s1.candidates, s1.nominators, n, from, to, on);
    hide TwoBonds, Merged;
    SwitchOnWrites(s1, n, from, on);
  }

  // Stake that nothing backs.

  lemma SwitchedOnTotals(c: Candidates, ns: Nominators, c': Candidates, ns': Nominators,
                         n: AccountId, from: AccountId, to: AccountId, on: AccountId)
    requires TwoBonds(c, ns, n, from, to, on) && SwitchedOn(c, ns, c', ns', n, from, to, on)
    ensures on in c' && c'[on].total == c[on].total + ns[n].nominations[from]
    ensures Sum(Totals(c')) == Sum(Totals(c)) + ns[n].nominations[from]
  {
    hide Sum, Totals;
    var a, b := ns[n].nominations[from], ns[n].nominations[to];
    var c1 := c[from := Backed(c[from], n, 0)];
    var c2 := c1[to := Backed(c[to], n, a + b)];
    TotalsUpdate(c, from, Backed(c[from], n, 0));
    TotalsUpdate(c1, to, Backed(c[to], n, a + b));
    TotalsUpdate(c2, on, Backed(c[on], n, a));
  }

  /** Stake from nothing: from solvent books, with a switch that merges and then one of the stale bond
      on to any third candidate, both accepted. The bond adds to that candidate's total and nothing is
      reserved for it, so the totals that selection and payout go by exceed all reserves by it. */
  lemma StakeFromNothing(s: State, n: AccountId, from: AccountId, to: AccountId, on: AccountId)
    requires Solvent(s) && from != to && Nominates(s.nominators, n, from) && Nominates(s.nominators, n, to)
    requires on in s.candidates && !Nominates(s.nominators, n, on)
    ensures SwitchNomination(s, n, from, to).result.Ok?
    ensures SwitchNomination(SwitchNomination(s, n, from, to).state, n, from, on).result.Ok?
    ensures var s', stale := SwitchedTwice(s, n, from, to, on), s.nominators[n].nominations[from];
      && 0 < stale
      && on in s'.candidates && s'.candidates[on].total == s.candidates[on].total + stale
      && s'.ledger == s.ledger
      && Sum(Totals(s'.candidates)) == Sum(s'.ledger.held) + stale
  {
    SoundBonds(s, n, from, to, on);
    MergeWrites(s, n, from, to, on);
    SwitchesTwice(s, n, from, to, on);
    var s' := SwitchedTwice(s, n, from, to, on);
    hide Sound, SwitchedTwice, SwitchNomination, SwitchedOn, Merged, Sum, Totals;
    SwitchedOnTotals(s.candidates, s.nominators, s'.candidates, s'.nominators, n, from, to, on);
  }

  // And then the nominator leaves.

  lemma BondsAfterSum(m: map<AccountId, int>, from: AccountId, to: AccountId, on: AccountId)
    requires from in m && to in m && on !in m && from != to
    ensures Sum(BondsAfter(m, from, to, on)) == Sum(m) + m[from]
  {
    hide Sum;
    var m1 := m[to := m[from] + m[to]];
    SumUpdate(m, to, m[from] + m[to]);
    SumRemove(m1, from);
    SumUpdate(m1 - {from}, on, m[from]);
  }

  lemma SoundListed(c: Candidates, ns: Nominators, n: AccountId)
    requires Sound(c, ns) && n in ns
    ensures Listed(c, n, ns[n].nominations)
  {
    SoundBounds(c, ns);
    hide LocalSums, Floors, Roles;
    forall v | v in ns[n].nominations ensures Backs(c, v, n) && c[v].nominators[n] == ns[n].nominations[v] >= 0 {
      assert Nominates(ns, n, v);
    }
  }

  lemma SwitchedOnListed(c: Candidates, ns: Nominators, c': Candidates, ns': Nominators,
                         n: AccountId, from: AccountId, to: AccountId, on: AccountId)
    requires TwoBonds(c, ns, n, from, to, on) && SwitchedOn(c, ns, c', ns', n, from, to, on)
    requires Listed(c, n, ns[n].nominations)
    ensures n in ns' && ns'[n].nominations == BondsAfter(ns[n].nominations, from, to, on)
    ensures Listed(c', n, ns'[n].nominations)
  {
  }

  /** After these two switches the nominator can leave: the call is accepted, and takes from what other
      pallets have reserved for the account as much of the stale bond as they have. */
  lemma LeavingTakesFromOthers(s: State, n: AccountId, from: AccountId, to: AccountId, on: AccountId)
    requires Solvent(s) && from != to && Nominates(s.nominators, n, from) && Nominates(s.nominators, n, to)
    requires on in s.candidates && !Nominates(s.nominators, n, on)
    ensures SwitchedTwice(s, n, from, to, on).ledger == s.ledger
    ensures var left := LeaveNominators(SwitchedTwice(s, n, from, to, on), n);
      var l, l', stale := s.ledger, left.state.ledger, s.nominators[n].nominations[from];
      && left.result.Ok?
      && 0 < stale && 0 <= Elsewhere(l, n)
      && Elsewhere(l', n) == Elsewhere(l, n) - Min(stale, Elsewhere(l, n))
      && Held(l', n) == 0 - Min(stale, Elsewhere(l, n))
  {
    SoundBonds(s, n, from, to, on);
    SwitchesTwice(s, n, from, to, on);
    SoundListed(s.candidates, s.nominators, n);
    SolventHolds(s, n);
    TotalHeld(s, n);
    hide Solvent, SwitchedTwice, SwitchNomination, SwitchedOn, LeaveNominators, Listed, Sum, BondsAfter, Held, Reserved;
    var s' := SwitchedTwice(s, n, from, to, on);
    SwitchedOnListed(s.candidates, s.nominators, s'.candidates, s'.nominators, n, from, to, on);
    BondsAfterSum(s.nominators[n].nominations, from, to, on);
    LeaveTakesExactly(s', n);
  }

  lemma TotalHeld(s: State, n: AccountId)
    requires Solvent(s) && n in s.nominators
    ensures Held(s.ledger, n) == s.nominators[n].total == Sum(s.nominators[n].nominations)
  {
    hide Mirror, Floors, Sum, Totals;
    assert Held(s.ledger, n) == Owed(s.candidates, s.nominators, n);
  }
}
