/** The invariant of clean states: sound books, and a ledger that holds for every account exactly
    what the books owe it. Every call keeps it, except an accepted switch into a
    validator already nominated. */
module Solvency {
  import opened Primitives
  import opened Sums
  import opened Currency
  import opened StakeSpec
  import opened Books

  /** What the pallet holds for each account is what the books owe it, and it is still reserved. */
  ghost predicate Covered(l: Ledger, c: Candidates, ns: Nominators) {
    && (forall a :: Held(l, a) == Owed(c, ns, a))
    && (forall a :: Held(l, a) <= Reserved(l, a))
    && Sum(l.held) == Sum(Totals(c))
  }

  ghost predicate Solvent(s: State) {
    Sound(s.candidates, s.nominators) && Covered(s.ledger, s.candidates, s.nominators)
  }

  /** `change` moved between what is free and what this pallet has reserved for `a`. */
  ghost predicate Moved(l: Ledger, l': Ledger, a: AccountId, change: int) {
    && (forall b :: Held(l', b) == Held(l, b) + if b == a then change else 0)
    && (forall b :: Reserved(l', b) == Reserved(l, b) + if b == a then change else 0)
    && (forall b :: Free(l', b) == Free(l, b) - if b == a then change else 0)
    && Sum(l'.held) == Sum(l.held) + change
  }

  lemma ReserveMoves(l: Ledger, a: AccountId, v: nat)
    requires CanReserve(l, a, v)
    ensures Moved(l, Reserve(l, a, v), a, v)
  {
    SumUpdate(l.held, a, Held(l, a) + v);
  }

  /** A release of no more than is reserved is exact. */
  lemma UnreserveMoves(l: Ledger, a: AccountId, v: nat)
    requires v <= Reserved(l, a)
    ensures Moved(l, Unreserve(l, a, v), a, 0 - v)
  {
    SumUpdate(l.held, a, Held(l, a) - v);
  }

  /** Moving the ledger and what is owed by the same amount keeps the ledger in step with the books. */
  lemma MoveCovered(l: Ledger, l': Ledger, c: Candidates, ns: Nominators, c': Candidates, ns': Nominators,
                    a: AccountId, change: int)
    requires Covered(l, c, ns) && Moved(l, l', a, change)
    requires forall b :: Owed(c', ns', b) == Owed(c, ns, b) + if b == a then change else 0
    requires Sum(Totals(c')) == Sum(Totals(c)) + change
    ensures Covered(l', c', ns')
  {
    hide Owed, Sum, Totals;
  }

  /** The same for a change to candidate `v`'s own bond, or to a new candidate's. */
  lemma PutCovered(l: Ledger, l': Ledger, c: Candidates, ns: Nominators, v: AccountId, x: Candidate)
    requires Covered(l, c, ns) && v !in ns
    requires Moved(l, l', v, x.bond - if v in c then c[v].bond else 0)
    requires x.bond - (if v in c then c[v].bond else 0) == x.total - if v in c then c[v].total else 0
    ensures Covered(l', c[v := x], ns)
  {
    hide Covered, Moved, Sum, Totals;
    TotalsUpdate(c, v, x);
    MoveCovered(l, l', c, ns, c[v := x], ns, v, x.bond - if v in c then c[v].bond else 0);
  }

  /** One bond set on both sides, with the ledger moving by the difference. */
  ghost predicate BondSet(s: State, s': State, v: AccountId, n: AccountId, amount: nat)
    requires v in s.candidates
  {
    && s'.candidates == SetBacking(s.candidates, v, n, amount)
    && s'.nominators == SetNomination(s.nominators, n, v, amount)
    && Moved(s.ledger, s'.ledger, n, amount - Get(s.candidates[v].nominators, n))
  }

  lemma BondSetSolvent(s: State, s': State, v: AccountId, n: AccountId, amount: nat)
    requires Solvent(s) && MaySet(s.candidates, s.nominators, v, n, amount)
    requires BondSet(s, s', v, n, amount)
    ensures Solvent(s')
  {
    hide Sound, Covered, Moved, SetBacking, SetNomination, Sum, Totals;
    SetSound(s.candidates, s.nominators, v, n, amount);
    var change := amount - Get(s.candidates[v].nominators, n);
    forall a
      ensures Owed(s'.candidates, s'.nominators, a)
              == Owed(s.candidates, s.nominators, a) + if a == n then change else 0
    {
      SetOwed(s.candidates, s.nominators, v, n, amount, a);
    }
    SetOwed(s.candidates, s.nominators, v, n, amount, n);
    MoveCovered(s.ledger, s'.ledger, s.candidates, s.nominators, s'.candidates, s'.nominators, n, change);
  }

  // The calls of candidates.

  lemma JoinCandidatesSolvent(s: State, acc: AccountId, fee: Perbill, bond: nat)
    requires Solvent(s)
    ensures Solvent(JoinCandidates(s, acc, fee, bond).state)
  {
    hide Sound, Covered, Moved;
    if JoinCandidates(s, acc, fee, bond).result.Ok? {
      JoinSound(s.candidates, s.nominators, acc, fee, bond);
      ReserveMoves(s.ledger, acc, bond);
      PutCovered(s.ledger, Reserve(s.ledger, acc, bond), s.candidates, s.nominators, acc,
                 Candidate(acc, fee, bond, map[], bond, Active));
    }
  }

  /** A candidate's record rewritten with another bond and status, and the ledger moved accordingly. */
  lemma OwnBondSolvent(s: State, s': State, v: AccountId, bond: int, status: Status)
    requires Solvent(s) && v in s.candidates && cfg.minValidatorStk <= bond
    requires var c := s.candidates[v];
      s'.candidates == s.candidates[v := c.(bond := bond, total := c.total + bond - c.bond, status := status)]
    requires s'.nominators == s.nominators && Moved(s.ledger, s'.ledger, v, bond - s.candidates[v].bond)
    ensures Solvent(s')
  {
    hide Covered, Moved, Mirror, LocalSums, Floors;
    OwnBondSound(s.candidates, s.nominators, v, bond, status);
    PutCovered(s.ledger, s'.ledger, s.candidates, s.nominators, v, s'.candidates[v]);
  }

  lemma CandidateBondMoreSolvent(s: State, v: AccountId, more: nat)
    requires Solvent(s)
    ensures Solvent(CandidateBondMore(s, v, more).state)
  {
    hide Covered, Moved, Mirror, LocalSums, NominationsAboveFloor, NominationsInRange;
    if CandidateBondMore(s, v, more).result.Ok? {
      ReserveMoves(s.ledger, v, more);
      OwnBondSolvent(s, CandidateBondMore(s, v, more).state, v, s.candidates[v].bond + more, s.candidates[v].status);
    }
  }

  lemma CandidateBondLessSolvent(s: State, v: AccountId, less: nat)
    requires Solvent(s)
    ensures Solvent(CandidateBondLess(s, v, less).state)
  {
    hide Sound, Moved;
    if CandidateBondLess(s, v, less).result.Ok? {
      assert less <= Reserved(s.ledger, v) by {
        assert less <= Owed(s.candidates, s.nominators, v) == Held(s.ledger, v);
      }
      UnreserveMoves(s.ledger, v, less);
      OwnBondSolvent(s, CandidateBondLess(s, v, less).state, v, s.candidates[v].bond - less, s.candidates[v].status);
    }
  }

  /** Leaving, going offline and coming back online change the status alone. */
  lemma StatusSolvent(s: State, s': State, v: AccountId, status: Status)
    requires Solvent(s) && v in s.candidates
    requires s'.candidates == s.candidates[v := s.candidates[v].(status := status)]
    requires s'.nominators == s.nominators && s'.ledger == s.ledger
    ensures Solvent(s')
  {
    hide Covered, Mirror, LocalSums, NominationsAboveFloor, NominationsInRange;
    OwnBondSolvent(s, s', v, s.candidates[v].bond, status);
  }

  // The calls of nominators.

  lemma JoinNominatorsEffect(s: State, acc: AccountId, v: AccountId, amount: nat)
    requires JoinNominators(s, acc, v, amount).result.Ok?
    ensures CanReserve(s.ledger, acc, amount) && v in s.candidates && acc !in s.candidates[v].nominators
    ensures acc !in s.nominators && cfg.minNominatorStk <= amount
    ensures var s', c := JoinNominators(s, acc, v, amount).state, s.candidates[v];
      && s'.candidates == s.candidates[v := c.(nominators := c.nominators[acc := amount], total := c.total + amount)]
      && s'.nominators == s.nominators[acc := Nominator(map[v := amount], amount)]
      && s'.ledger == Reserve(s.ledger, acc, amount)
  {
    hide CanReserve, Reserve;
  }

  lemma JoinNominatorsIsBondSet(s: State, acc: AccountId, v: AccountId, amount: nat)
    requires JoinNominators(s, acc, v, amount).result.Ok?
    ensures BondSet(s, JoinNominators(s, acc, v, amount).state, v, acc, amount)
  {
    hide JoinNominators, Moved, CanReserve, Reserve;
    JoinNominatorsEffect(s, acc, v, amount);
    ReserveMoves(s.ledger, acc, amount);
    assert map[][v := amount] == map[v := amount];
  }

  lemma JoinNominatorsSolvent(s: State, acc: AccountId, v: AccountId, amount: nat)
    requires Solvent(s)
    ensures Solvent(JoinNominators(s, acc, v, amount).state)
  {
    hide Sound, Covered, BondSet;
    if JoinNominators(s, acc, v, amount).result.Ok? {
      JoinNominatorsIsBondSet(s, acc, v, amount);
      BondSetSolvent(s, JoinNominators(s, acc, v, amount).state, v, acc, amount);
    }
  }

  lemma NominateNewIsBondSet(s: State, acc: AccountId, v: AccountId, amount: nat)
    requires NominateNew(s, acc, v, amount).result.Ok?
    ensures BondSet(s, NominateNew(s, acc, v, amount).state, v, acc, amount)
  {
    hide Moved;
    ReserveMoves(s.ledger, acc, amount);
    var s' := NominateNew(s, acc, v, amount).state;
    assert s'.candidates[v] == Backed(s.candidates[v], acc, amount);
    assert s'.nominators[acc] == Nominated(s.nominators[acc], v, amount);
    assert v in s'.nominators[acc].nominations;
    assert amount - Get(s.candidates[v].nominators, acc) == amount;
  }

  lemma NominateNewSolvent(s: State, acc: AccountId, v: AccountId, amount: nat)
    requires Solvent(s)
    ensures Solvent(NominateNew(s, acc, v, amount).state)
  {
    hide Mirror, LocalSums, Floors, Covered, BondSet;
    if NominateNew(s, acc, v, amount).result.Ok? {
      NominateNewIsBondSet(s, acc, v, amount);
      BondSetSolvent(s, NominateNew(s, acc, v, amount).state, v, acc, amount);
    }
  }

  /** `n` and `v` hold the same bond, which is covered: the facts the calls on an existing bond need. */
  lemma ExistingBond(s: State, v: AccountId, n: AccountId)
    requires Solvent(s) && Nominates(s.nominators, n, v)
    ensures Backs(s.candidates, v, n) && n !in s.candidates
    ensures s.candidates[v].nominators[n] == s.nominators[n].nominations[v]
    ensures cfg.minNomination <= s.nominators[n].nominations[v] <= s.nominators[n].total <= Reserved(s.ledger, n)
  {
    hide LocalSums;
    SoundBounds(s.candidates, s.nominators);
    assert Backs(s.candidates, v, n);
    assert s.nominators[n].total == Owed(s.candidates, s.nominators, n) == Held(s.ledger, n);
  }

  lemma NominatorBondMoreIsBondSet(s: State, acc: AccountId, v: AccountId, more: nat)
    requires NominatorBondMore(s, acc, v, more).result.Ok?
    requires Backs(s.candidates, v, acc) && s.candidates[v].nominators[acc] == s.nominators[acc].nominations[v] > 0
    ensures BondSet(s, NominatorBondMore(s, acc, v, more).state, v, acc, s.nominators[acc].nominations[v] + more)
  {
    hide Moved;
    ReserveMoves(s.ledger, acc, more);
    var s' := NominatorBondMore(s, acc, v, more).state;
    var amount := s.nominators[acc].nominations[v] + more;
    assert s'.candidates[v] == Backed(s.candidates[v], acc, amount);
    assert s'.nominators[acc] == Nominated(s.nominators[acc], v, amount);
    assert v in s'.nominators[acc].nominations;
    assert amount - Get(s.candidates[v].nominators, acc) == more;
  }

  lemma NominatorBondMoreSolvent(s: State, acc: AccountId, v: AccountId, more: nat)
    requires Solvent(s)
    ensures Solvent(NominatorBondMore(s, acc, v, more).state)
  {
    hide Sound, Covered, BondSet;
    if NominatorBondMore(s, acc, v, more).result.Ok? {
      ExistingBond(s, v, acc);
      NominatorBondMoreIsBondSet(s, acc, v, more);
      BondSetSolvent(s, NominatorBondMore(s, acc, v, more).state, v, acc, s.nominators[acc].nominations[v] + more);
    }
  }

  lemma NominatorBondLessIsBondSet(s: State, acc: AccountId, v: AccountId, less: nat)
    requires NominatorBondLess(s, acc, v, less).result.Ok? && less <= Reserved(s.ledger, acc)
    requires Backs(s.candidates, v, acc) && s.candidates[v].nominators[acc] == s.nominators[acc].nominations[v] > 0
    ensures BondSet(s, NominatorBondLess(s, acc, v, less).state, v, acc, s.nominators[acc].nominations[v] - less)
  {
    hide Moved;
    UnreserveMoves(s.ledger, acc, less);
    var s' := NominatorBondLess(s, acc, v, less).state;
    var amount := s.nominators[acc].nominations[v] - less;
    assert s'.candidates[v] == Backed(s.candidates[v], acc, amount);
    assert s'.nominators[acc] == Nominated(s.nominators[acc], v, amount);
    assert v in s'.nominators[acc].nominations;
    assert amount - Get(s.candidates[v].nominators, acc) == 0 - less;
  }

  lemma NominatorBondLessSolvent(s: State, acc: AccountId, v: AccountId, less: nat)
    requires Solvent(s)
    ensures Solvent(NominatorBondLess(s, acc, v, less).state)
  {
    hide Sound, Covered, BondSet;
    if NominatorBondLess(s, acc, v, less).result.Ok? {
      ExistingBond(s, v, acc);
      NominatorBondLessIsBondSet(s, acc, v, less);
      BondSetSolvent(s, NominatorBondLess(s, acc, v, less).state, v, acc, s.nominators[acc].nominations[v] - less);
    }
  }

  // Departures.

  /** The bond of `n` with `v` gone from both records and released. */
  function Detach(s: State, v: AccountId, n: AccountId): State
    requires v in s.candidates
  {
    s.(candidates := SetBacking(s.candidates, v, n, 0),
       nominators := SetNomination(s.nominators, n, v, 0),
       ledger := Unreserve(s.ledger, n, Get(s.candidates[v].nominators, n)))
  }

  lemma DetachSolvent(s: State, v: AccountId, n: AccountId)
    requires Solvent(s) && Nominates(s.nominators, n, v)
    ensures Backs(s.candidates, v, n)
    ensures 0 < s.nominators[n].nominations[v] == s.candidates[v].nominators[n] <= Reserved(s.ledger, n)
    ensures Moved(s.ledger, Detach(s, v, n).ledger, n, 0 - s.nominators[n].nominations[v])
    ensures Solvent(Detach(s, v, n))
  {
    hide Sound, Covered, Moved;
    ExistingBond(s, v, n);
    UnreserveMoves(s.ledger, n, s.nominators[n].nominations[v]);
    BondSetSolvent(s, Detach(s, v, n), v, n, 0);
  }

  /** Without its bond with `v` a nominator's record goes exactly when nothing remains of its total. */
  lemma RestOfNominator(s: State, v: AccountId, n: AccountId)
    requires Sound(s.candidates, s.nominators) && Nominates(s.nominators, n, v)
    ensures var rest := RmNomination(s.nominators[n], v);
      && rest == Nominated(s.nominators[n], v, 0)
      && (rest.total == 0 <==> rest.nominations == map[])
      && 0 <= rest.total
      && SetNomination(s.nominators, n, v, 0)
         == if rest.total == 0 then s.nominators - {n} else s.nominators[n := rest]
  {
    hide Mirror, Roles, BondsAboveFloor, NominationsInRange;
    var x := s.nominators[n];
    var rest := RmNomination(x, v);
    NominationsPositive(s.candidates, s.nominators, n);
    SumRemove(x.nominations, v);
    SumEmpty(rest.nominations);
    SumNonNegative(rest.nominations);
  }

  lemma RevokeNominationIsDetach(s: State, acc: AccountId, v: AccountId)
    requires Solvent(s) && RevokeNomination(s, acc, v).result.Ok?
    ensures Nominates(s.nominators, acc, v) && v in s.candidates
    ensures var s', d := RevokeNomination(s, acc, v).state, Detach(s, v, acc);
      s'.candidates == d.candidates && s'.nominators == d.nominators && s'.ledger == d.ledger
  {
    hide Sound, Covered, SetNomination;
    RestOfNominator(s, v, acc);
  }

  lemma RevokeNominationSolvent(s: State, acc: AccountId, v: AccountId)
    requires Solvent(s)
    ensures Solvent(RevokeNomination(s, acc, v).state)
  {
    hide Sound, Covered, Moved;
    if RevokeNomination(s, acc, v).result.Ok? {
      RevokeNominationIsDetach(s, acc, v);
      DetachSolvent(s, v, acc);
    }
  }
}
