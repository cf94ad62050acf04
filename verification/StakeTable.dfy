/** Every call, told as what it does to one table: who has how much at stake with which candidate. On
    solvent books the table, with the fees and the statuses, determines both records of every bond, so
    that is all there is to say. */
module StakeTable {
  import opened Primitives
  import opened Sums
  import opened Currency
  import opened StakeSpec
  import opened Books
  import opened Solvency

  /** What `n` has at stake with candidate `v`: its own bond if it is `v`, else what it has nominated
      with; zero if it has nothing. */
  ghost function StakeOf(c: Candidates, v: AccountId, n: AccountId): int {
    if v !in c then 0 else if n == v then c[v].bond else Get(c[v].nominators, n)
  }

  /** On solvent books a nominator has something at stake exactly where it nominates, and as much. */
  lemma StakeIsNomination(s: State, v: AccountId, n: AccountId)
    requires Solvent(s) && n in s.nominators
    ensures v in s.nominators[n].nominations <==> StakeOf(s.candidates, v, n) != 0
    ensures v in s.nominators[n].nominations ==>
              && v in s.candidates && v != n && n !in s.candidates && n in s.candidates[v].nominators
              && 0 < StakeOf(s.candidates, v, n) == s.nominators[n].nominations[v]
  {
    hide LocalSums, BondsAboveFloor, NominationsInRange, Covered;
    assert Backs(s.candidates, v, n) <==> Nominates(s.nominators, n, v);
  }

  /** Only nominators have a stake with somebody else. */
  lemma StakeIsBacking(s: State, v: AccountId, n: AccountId)
    requires Solvent(s) && v != n
    ensures StakeOf(s.candidates, v, n) != 0 <==> Backs(s.candidates, v, n)
    ensures 0 <= StakeOf(s.candidates, v, n)
    ensures Backs(s.candidates, v, n) ==> n in s.nominators && n !in s.candidates
  {
    hide LocalSums, BondsAboveFloor, NominationsInRange, Covered;
    assert Backs(s.candidates, v, n) <==> Nominates(s.nominators, n, v);
  }

  // What the table determines.

  lemma SameBackings(s: State, t: State, v: AccountId)
    requires Solvent(s) && Solvent(t) && v in s.candidates && v in t.candidates
    requires forall n :: StakeOf(s.candidates, v, n) == StakeOf(t.candidates, v, n)
    ensures s.candidates[v].nominators == t.candidates[v].nominators
  {
    hide Solvent;
    var m, m' := s.candidates[v].nominators, t.candidates[v].nominators;
    OwnBacking(s, v);
    OwnBacking(t, v);
    forall n ensures n in m <==> n in m'
             ensures n in m && n in m' ==> m[n] == m'[n]
    {
      if n != v {
        StakeIsBacking(s, v, n);
        StakeIsBacking(t, v, n);
      }
    }
    assert m == m';
  }

  lemma OwnBacking(s: State, v: AccountId)
    requires Solvent(s) && v in s.candidates
    ensures v !in s.candidates[v].nominators
  {
    hide LocalSums, Floors, Covered;
    assert Backs(s.candidates, v, v) <==> Nominates(s.nominators, v, v);
  }

  lemma SameNominations(s: State, t: State, n: AccountId)
    requires Solvent(s) && Solvent(t) && n in s.nominators && n in t.nominators
    requires forall v :: StakeOf(s.candidates, v, n) == StakeOf(t.candidates, v, n)
    ensures s.nominators[n].nominations == t.nominators[n].nominations
  {
    hide Solvent;
    var m, m' := s.nominators[n].nominations, t.nominators[n].nominations;
    forall v ensures v in m <==> v in m'
             ensures v in m && v in m' ==> m[v] == m'[v]
    {
      StakeIsNomination(s, v, n);
      StakeIsNomination(t, v, n);
      hide StakeOf;
    }
    assert m == m';
  }

  lemma NominatorByStake(s: State, t: State, n: AccountId)
    requires Solvent(s) && Solvent(t) && s.candidates.Keys == t.candidates.Keys
    requires forall v :: StakeOf(s.candidates, v, n) == StakeOf(t.candidates, v, n)
    requires n in s.nominators
    ensures n in t.nominators
  {
    assert 1 <= |s.nominators[n].nominations| by { hide Mirror, LocalSums, NominationsAboveFloor, BondsAboveFloor, Covered, Roles; }
    hide Solvent;
    assert s.nominators[n].nominations.Keys != {};
    var v :| v in s.nominators[n].nominations;
    StakeIsNomination(s, v, n);
    StakeIsBacking(t, v, n);
  }

  lemma SolventFacts(s: State)
    requires Solvent(s)
    ensures LocalSums(s.candidates, s.nominators) && Roles(s.candidates, s.nominators)
    ensures forall a :: Held(s.ledger, a) == Owed(s.candidates, s.nominators, a)
  {
    hide Mirror, LocalSums, Floors, Roles, Sum, Totals, Owed, Held;
  }

  lemma CandidateByStake(s: State, t: State, v: AccountId)
    requires Solvent(s) && Solvent(t) && v in s.candidates && v in t.candidates
    requires s.candidates[v].fee == t.candidates[v].fee && s.candidates[v].status == t.candidates[v].status
    requires forall n :: StakeOf(s.candidates, v, n) == StakeOf(t.candidates, v, n)
    ensures s.candidates[v] == t.candidates[v]
  {
    SameBackings(s, t, v);
    assert StakeOf(s.candidates, v, v) == StakeOf(t.candidates, v, v);
    SolventFacts(s);
    SolventFacts(t);
    hide Solvent, Sum;
  }

  lemma NominatorByStakes(s: State, t: State, n: AccountId)
    requires Solvent(s) && Solvent(t) && n in s.nominators && n in t.nominators
    requires forall v :: StakeOf(s.candidates, v, n) == StakeOf(t.candidates, v, n)
    ensures s.nominators[n] == t.nominators[n]
  {
    SameNominations(s, t, n);
    SolventFacts(s);
    SolventFacts(t);
    hide Solvent, Sum, StakeOf;
  }

  /** Two solvent states with the same candidates, fees, statuses and stakes have the same records of
      candidates and of nominators, and hold the same for everybody. */
  lemma TableDeterminesBooks(s: State, t: State)
    requires Solvent(s) && Solvent(t) && s.candidates.Keys == t.candidates.Keys
    requires forall v :: v in s.candidates ==>
               s.candidates[v].fee == t.candidates[v].fee && s.candidates[v].status == t.candidates[v].status
    requires forall v, n :: StakeOf(s.candidates, v, n) == StakeOf(t.candidates, v, n)
    ensures s.candidates == t.candidates && s.nominators == t.nominators
    ensures forall a :: Held(s.ledger, a) == Held(t.ledger, a)
  {
    hide Solvent, StakeOf, Held, Owed;
    forall v | v in s.candidates ensures v in t.candidates && s.candidates[v] == t.candidates[v] {
      assert v in t.candidates.Keys;
      CandidateByStake(s, t, v);
    }
    forall n ensures n in s.nominators <==> n in t.nominators {
      if n in s.nominators { NominatorByStake(s, t, n); }
      if n in t.nominators { NominatorByStake(t, s, n); }
    }
    forall n | n in s.nominators ensures s.nominators[n] == t.nominators[n] {
      NominatorByStakes(s, t, n);
    }
    assert s.candidates == t.candidates;
    assert s.nominators == t.nominators;
    SolventFacts(s);
    SolventFacts(t);
  }
}
