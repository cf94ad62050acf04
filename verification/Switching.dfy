/** `switch_nomination`: what it moves, what a clean switch keeps, and what an accepted switch
    into a validator already nominated breaks. */
module Switching {
  import opened Primitives
  import opened Sums
  import opened Currency
  import opened StakeSpec
  import opened Books
  import opened Solvency

  /** The switch targets a validator that the caller already nominates: the merge branch. */
  ghost predicate Merges(s: State, acc: AccountId, to: AccountId) {
    Nominates(s.nominators, acc, to)
  }

  /** Every call is clean but a switch that is accepted and merges. */
  ghost predicate CleanCall(s: State, who: AccountId, call: Call) {
    call.CallSwitchNomination? && SwitchNomination(s, who, call.from, call.to).result.Ok? ==> !Merges(s, who, call.to)
  }

  /** What a switch writes, when the two records agree on the two bonds involved. */
  lemma SwitchEffect(s: State, acc: AccountId, from: AccountId, to: AccountId)
    requires SwitchNomination(s, acc, from, to).result.Ok?
    requires Backs(s.candidates, from, acc)
    requires s.candidates[from].nominators[acc] == s.nominators[acc].nominations[from]
    requires Backs(s.candidates, to, acc) <==> Merges(s, acc, to)
    requires Merges(s, acc, to) ==> s.candidates[to].nominators[acc] == s.nominators[acc].nominations[to]
    ensures var c, s', x := s.candidates, SwitchNomination(s, acc, from, to).state, s.nominators[acc].nominations[from];
      && s'.nominators == s.nominators[acc := SwapNomination(s.nominators[acc], from, to)]
      && s'.candidates == c[from := Backed(c[from], acc, 0)][to := s'.candidates[to]]
      && s'.candidates[to].total == c[to].total + x
      && s'.candidates[to].bond == c[to].bond && s'.candidates[to].id == c[to].id && s'.candidates[to].fee == c[to].fee
      && s'.candidates[to].nominators.Keys == c[to].nominators.Keys + {acc}
      && (!Merges(s, acc, to) ==> s'.candidates[to] == c[to].(nominators := c[to].nominators[acc := x], total := c[to].total + x))
      && s'.ledger == s.ledger && s'.total == s.total
  {
    var s', x := SwitchNomination(s, acc, from, to).state, s.nominators[acc].nominations[from];
    assert s'.candidates[from] == Backed(s.candidates[from], acc, 0);
  }

  lemma MirroredSwitchEffect(s: State, acc: AccountId, from: AccountId, to: AccountId)
    requires Mirror(s.candidates, s.nominators) && SwitchNomination(s, acc, from, to).result.Ok?
    ensures Backs(s.candidates, from, acc)
    ensures s.candidates[from].nominators[acc] == s.nominators[acc].nominations[from]
    ensures Backs(s.candidates, to, acc) <==> Merges(s, acc, to)
    ensures Merges(s, acc, to) ==> s.candidates[to].nominators[acc] == s.nominators[acc].nominations[to]
  {
    assert Nominates(s.nominators, acc, from);
  }

  /** From any mirrored state, both branches move exactly the swapped amount from the old
      candidate's total to the new one's, and touch no other candidate, balance or counter. */
  lemma SwitchMovesSwappedAmount(s: State, acc: AccountId, from: AccountId, to: AccountId)
    requires Mirror(s.candidates, s.nominators)
    requires SwitchNomination(s, acc, from, to).result.Ok?
    ensures var c, s', x := s.candidates, SwitchNomination(s, acc, from, to).state, s.nominators[acc].nominations[from];
      && s'.candidates.Keys == c.Keys
      && s'.candidates[from].total == c[from].total - x
      && s'.candidates[to].total == c[to].total + x
      && s'.candidates[from].nominators.Keys == c[from].nominators.Keys - {acc}
      && s'.candidates[to].nominators.Keys == c[to].nominators.Keys + {acc}
      && (forall v :: v in c && v != from && v != to ==> s'.candidates[v] == c[v])
      && s'.nominators[acc].total == s.nominators[acc].total
      && s'.ledger == s.ledger && s'.total == s.total
      && Sum(Totals(s'.candidates)) == Sum(Totals(c))
  {
    var c := s.candidates;
    var s' := SwitchNomination(s, acc, from, to).state;
    MirroredSwitchEffect(s, acc, from, to);
    hide Mirror;
    SwitchEffect(s, acc, from, to);
    hide SwitchNomination, Sum, Totals;
    var mid := c[from := Backed(c[from], acc, 0)];
    TotalsUpdate(c, from, Backed(c[from], acc, 0));
    TotalsUpdate(mid, to, s'.candidates[to]);
  }

  /** A clean switch is one bond removed and one of the same amount added. */
  lemma CleanSwitchIsTwoSets(s: State, acc: AccountId, from: AccountId, to: AccountId)
    requires Solvent(s) && !Merges(s, acc, to)
    requires SwitchNomination(s, acc, from, to).result.Ok?
    ensures var s', x := SwitchNomination(s, acc, from, to).state, s.nominators[acc].nominations[from];
      && cfg.minNomination <= x
      && s'.candidates == SetBacking(SetBacking(s.candidates, from, acc, 0), to, acc, x)
      && s'.nominators == SetNomination(SetNomination(s.nominators, acc, from, 0), acc, to, x)
      && s'.ledger == s.ledger
  {
    hide LocalSums, Floors, Covered, Mirror;
    var s', x := SwitchNomination(s, acc, from, to).state, s.nominators[acc].nominations[from];
    MirroredSwitchEffect(s, acc, from, to);
    assert Nominates(s.nominators, acc, from);
    ExistingBond(s, from, acc);
    RestOfNominator(s, from, acc);
    SwitchEffect(s, acc, from, to);
    hide SwitchNomination, Sound, SetNomination;
    CleanSwap(s.nominators, acc, from, to);
  }

  lemma CleanSwap(ns: Nominators, acc: AccountId, from: AccountId, to: AccountId)
    requires Nominates(ns, acc, from) && !Nominates(ns, acc, to) && 0 < ns[acc].nominations[from]
    requires var rest := RmNomination(ns[acc], from);
      SetNomination(ns, acc, from, 0) == (if rest.total == 0 then ns - {acc} else ns[acc := rest])
      && (rest.total == 0 <==> rest.nominations == map[])
    ensures ns[acc := SwapNomination(ns[acc], from, to)]
            == SetNomination(SetNomination(ns, acc, from, 0), acc, to, ns[acc].nominations[from])
  {
    var x := SwapNomination(ns[acc], from, to);
    assert to in x.nominations;
    assert x == Nominated(Nomination(SetNomination(ns, acc, from, 0), acc), to, ns[acc].nominations[from]);
  }

  lemma SwitchNominationSolvent(s: State, acc: AccountId, from: AccountId, to: AccountId)
    requires Solvent(s) && (SwitchNomination(s, acc, from, to).result.Ok? ==> !Merges(s, acc, to))
    ensures Solvent(SwitchNomination(s, acc, from, to).state)
  {
    if SwitchNomination(s, acc, from, to).result.Ok? {
      var c, ns, x := s.candidates, s.nominators, s.nominators[acc].nominations[from];
      hide Mirror, LocalSums, Floors, Covered;
      CleanSwitchIsTwoSets(s, acc, from, to);
      assert Nominates(ns, acc, from);
      ExistingBond(s, from, acc);
      MirroredSwitchEffect(s, acc, from, to);
      RoomAfterRemoval(c, ns, from, acc);
      TwoSetsSolvent(s, SwitchNomination(s, acc, from, to).state, acc, from, to, x);
    }
  }

  lemma TwoSetsSolvent(s: State, s': State, acc: AccountId, from: AccountId, to: AccountId, x: nat)
    requires Solvent(s) && from in s.candidates && to in s.candidates && acc !in s.candidates && from != to
    requires Backs(s.candidates, from, acc) && !Backs(s.candidates, to, acc)
    requires s.candidates[from].nominators[acc] == x >= cfg.minNomination
    requires |Nomination(SetNomination(s.nominators, acc, from, 0), acc).nominations| < NOMINATIONS_CAP
    requires s'.candidates == SetBacking(SetBacking(s.candidates, from, acc, 0), to, acc, x)
    requires s'.nominators == SetNomination(SetNomination(s.nominators, acc, from, 0), acc, to, x)
    requires s'.ledger == s.ledger
    ensures Solvent(s')
  {
    var c, ns := s.candidates, s.nominators;
    hide Sound, Covered, SetBacking, SetNomination, Moved, Owed, Sum, Totals, Backs;
    forall a ensures Owed(s'.candidates, s'.nominators, a) == Owed(c, ns, a) {
      TwoSetsSound(c, ns, acc, from, to, x, a);
    }
    TwoSetsSound(c, ns, acc, from, to, x, acc);
    Unmoved(s.ledger, acc);
    MoveCovered(s.ledger, s.ledger, c, ns, s'.candidates, s'.nominators, acc, 0);
  }

  lemma TwoSetsSound(c: Candidates, ns: Nominators, acc: AccountId, from: AccountId, to: AccountId, x: nat, a: AccountId)
    requires Sound(c, ns) && from in c && to in c && acc !in c && from != to
    requires Backs(c, from, acc) && !Backs(c, to, acc)
    requires c[from].nominators[acc] == x >= cfg.minNomination
    requires |Nomination(SetNomination(ns, acc, from, 0), acc).nominations| < NOMINATIONS_CAP
    ensures var c', ns' := SetBacking(SetBacking(c, from, acc, 0), to, acc, x), SetNomination(SetNomination(ns, acc, from, 0), acc, to, x);
      Sound(c', ns') && Owed(c', ns', a) == Owed(c, ns, a) && Sum(Totals(c')) == Sum(Totals(c))
  {
    hide Sound, SetNomination, Owed, Sum, Totals;
    var c1, ns1 := SetBacking(c, from, acc, 0), SetNomination(ns, acc, from, 0);
    assert Get(c[from].nominators, acc) == x && Get(c1[to].nominators, acc) == 0;
    SetSound(c, ns, from, acc, 0);
    SetSound(c1, ns1, to, acc, x);
    SetOwed(c, ns, from, acc, 0, a);
    SetOwed(c1, ns1, to, acc, x, a);
  }

  lemma Unmoved(l: Ledger, a: AccountId)
    ensures Moved(l, l, a, 0)
  {
  }

  lemma RoomAfterRemoval(c: Candidates, ns: Nominators, v: AccountId, n: AccountId)
    requires Floors(c, ns) && Nominates(ns, n, v)
    ensures |Nomination(SetNomination(ns, n, v, 0), n).nominations| < NOMINATIONS_CAP
  {
    SetSize(ns[n].nominations, v, 0);
  }

  /** The exact effect of the merge branch on sound books: the two records agree on every bond
      except that of the caller with the old candidate, which stays in the caller's record only;
      the caller's nominations then exceed its total by the swapped amount. */
  lemma MergeBreaksMirror(s: State, acc: AccountId, from: AccountId, to: AccountId)
    requires Solvent(s) && Merges(s, acc, to)
    requires SwitchNomination(s, acc, from, to).result.Ok?
    ensures var s', x := SwitchNomination(s, acc, from, to).state, s.nominators[acc].nominations[from];
      && (forall v, n :: (v != from || n != acc) ==> (Backs(s'.candidates, v, n) <==> Nominates(s'.nominators, n, v)))
      && Nominates(s'.nominators, acc, from) && !Backs(s'.candidates, from, acc)
      && Sum(s'.nominators[acc].nominations) == s'.nominators[acc].total + x
      && 0 < x
    ensures !Solvent(SwitchNomination(s, acc, from, to).state)
  {
    hide Floors, Covered, Mirror;
    var s' := SwitchNomination(s, acc, from, to).state;
    MirroredSwitchEffect(s, acc, from, to);
    assert Nominates(s.nominators, acc, from);
    ExistingBond(s, from, acc);
    SwitchEffect(s, acc, from, to);
    hide SwitchNomination;
    SumUpdate(s.nominators[acc].nominations, to, s'.nominators[acc].nominations[to]);
    MergeBackers(s, s', acc, from, to);
  }

  lemma MergeBackers(s: State, s': State, acc: AccountId, from: AccountId, to: AccountId)
    requires Mirror(s.candidates, s.nominators) && from != to
    requires Nominates(s.nominators, acc, from) && Merges(s, acc, to) && Backs(s.candidates, from, acc)
    requires to in s.candidates && to in s'.candidates
    requires s'.nominators == s.nominators[acc := SwapNomination(s.nominators[acc], from, to)]
    requires s'.candidates == s.candidates[from := Backed(s.candidates[from], acc, 0)][to := s'.candidates[to]]
    requires s'.candidates[to].nominators.Keys == s.candidates[to].nominators.Keys + {acc}
    ensures forall v, n :: (v != from || n != acc) ==> (Backs(s'.candidates, v, n) <==> Nominates(s'.nominators, n, v))
    ensures Nominates(s'.nominators, acc, from) && !Backs(s'.candidates, from, acc)
    ensures !Mirror(s'.candidates, s'.nominators)
  {
    assert Backs(s.candidates, to, acc);
    forall v, n | v != from || n != acc
      ensures Backs(s'.candidates, v, n) <==> Nominates(s'.nominators, n, v)
    {
      assert n in s'.candidates[to].nominators <==> n in s.candidates[to].nominators.Keys + {acc};
      assert Backs(s'.candidates, v, n) <==> Backs(s.candidates, v, n);
      assert Nominates(s'.nominators, n, v) <==> Nominates(s.nominators, n, v);
    }
  }

  /** After a switch from a solvent state, the books are solvent exactly when it did not merge. */
  lemma SwitchSolventExactly(s: State, acc: AccountId, from: AccountId, to: AccountId)
    requires Solvent(s) && SwitchNomination(s, acc, from, to).result.Ok?
    ensures Solvent(SwitchNomination(s, acc, from, to).state) <==> !Merges(s, acc, to)
  {
    hide Solvent;
    if Merges(s, acc, to) {
      MergeBreaksMirror(s, acc, from, to);
    } else {
      SwitchNominationSolvent(s, acc, from, to);
    }
  }

  /** On solvent books a switch leaves the new candidate within the cap on nominators exactly when it
      has room, or lists the caller already; nothing checks that. */
  lemma SwitchKeepsNominatorCapExactly(s: State, acc: AccountId, from: AccountId, to: AccountId)
    requires Solvent(s) && SwitchNomination(s, acc, from, to).result.Ok?
    ensures |SwitchNomination(s, acc, from, to).state.candidates[to].nominators| <= cfg.maxNominatorsPerValidator
            <==> |s.candidates[to].nominators| + (if Merges(s, acc, to) then 0 else 1) <= cfg.maxNominatorsPerValidator
  {
    hide LocalSums, Floors, Covered;
    var m, m' := s.candidates[to].nominators, SwitchNomination(s, acc, from, to).state.candidates[to].nominators;
    SwitchMovesSwappedAmount(s, acc, from, to);
    assert acc in m <==> Merges(s, acc, to) by {
      assert Backs(s.candidates, to, acc) <==> Nominates(s.nominators, acc, to);
    }
    assert m'.Keys == m.Keys + {acc};
  }

  // The merge branch is reachable.

  /** From solvent books the code accepts every switch between two validators that the caller
      nominates, and every one of them breaks the books. */
  lemma EveryMergeBreaks(s: State, acc: AccountId, from: AccountId, to: AccountId)
    requires Solvent(s) && from != to
    requires Nominates(s.nominators, acc, from) && Nominates(s.nominators, acc, to)
    ensures SwitchNomination(s, acc, from, to).result.Ok?
    ensures !Solvent(SwitchNomination(s, acc, from, to).state)
  {
    hide LocalSums, Floors, Covered;
    assert Backs(s.candidates, from, acc) && Backs(s.candidates, to, acc);
    assert SwitchNomination(s, acc, from, to).result.Ok? by {
      hide PutCandidate, SwapNomination, RmNominator, AddNominator, UpdateNominator, Mirror;
    }
    hide Solvent, SwitchNomination;
    MergeBreaksMirror(s, acc, from, to);
  }
}
