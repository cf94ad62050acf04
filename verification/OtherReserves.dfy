/** What other pallets have reserved. The ledger keeps one reserve for each account, so a release of
    more than this pallet holds takes from the others. It never does on clean runs. */
module OtherReserves {
  import opened Primitives
  import opened Sums
  import opened Ascending
  import opened Currency
  import opened StakeSpec
  import opened Books
  import opened Solvency
  import opened Departures
  import opened Conservation
  import opened Chain
  import opened CleanRuns
  import opened ExitSchedule

  /** What is left in the reserve of `a` for other pallets: all of it but what this pallet holds. */
  function Elsewhere(l: Ledger, a: AccountId): int {
    Reserved(l, a) - Max(Held(l, a), 0)
  }

  /** On every ledger a release takes from the others exactly when what it gives back is more than this
      pallet holds, and then exactly the excess. */
  lemma ReleaseTakesExactly(l: Ledger, a: AccountId, v: int)
    ensures Elsewhere(Unreserve(l, a, v), a) < Elsewhere(l, a) <==> Max(Held(l, a), 0) < Releasable(l, a, v)
    ensures Elsewhere(Unreserve(l, a, v), a) == Elsewhere(l, a) - Max(Releasable(l, a, v) - Max(Held(l, a), 0), 0)
    ensures forall b :: b != a ==> Elsewhere(Unreserve(l, a, v), b) == Elsewhere(l, b)
  {
    hide Unreserve, Held, Reserved, Releasable;
  }

  /** As long as what is booked and the reserve move together, the others lose exactly as much as is
      booked below nothing. */
  lemma BookedBelowNothing(l: Ledger, l': Ledger, a: AccountId)
    requires Reserved(l', a) - Held(l', a) == Reserved(l, a) - Held(l, a)
    ensures Elsewhere(l, a) - Elsewhere(l', a) == Min(Held(l, a), 0) - Min(Held(l', a), 0)
    ensures Elsewhere(l', a) < Elsewhere(l, a) <==> Held(l', a) < Min(Held(l, a), 0)
  {
  }

  /** On every state a call takes from what others have reserved exactly when it books less than
      nothing as held, and less than before. */
  lemma DispatchTakesExactly(s: State, who: AccountId, call: Call, a: AccountId)
    ensures var l, l' := s.ledger, Dispatch(s, who, call).state.ledger;
      && (Elsewhere(l', a) < Elsewhere(l, a) <==> Held(l', a) < Min(Held(l, a), 0))
      && Elsewhere(l, a) - Elsewhere(l', a) == Min(Held(l, a), 0) - Min(Held(l', a), 0)
  {
    hide Dispatch, Elsewhere;
    DispatchConserves(s, who, call);
    BookedBelowNothing(s.ledger, Dispatch(s, who, call).state.ledger, a);
  }

  lemma NewRoundTakesExactly(s: State, chosen: set<AccountId>, a: AccountId)
    requires Selectable(s, chosen)
    ensures var l, l' := s.ledger, NewRound(s, chosen).ledger;
      Elsewhere(l', a) < Elsewhere(l, a) <==> Held(l', a) < Min(Held(l, a), 0)
  {
    hide Selectable, NewRound, Elsewhere, Reward, Mintage;
    NewRoundConserves(s, chosen);
    BookedBelowNothing(s.ledger, NewRound(s, chosen).ledger, a);
  }

  /** What a call that makes one release asks to be given back: a lower bond, or a nomination. */
  function Asked(s: State, who: AccountId, call: Call): int {
    match call
    case CallCandidateBondLess(less) => less
    case CallNominatorBondLess(_, less) => less
    case CallRevokeNomination(v) =>
      if v in s.candidates && who in s.candidates[v].nominators then s.candidates[v].nominators[who] else 0
    case _ => 0
  }

  predicate MakesOneRelease(call: Call) {
    call.CallCandidateBondLess? || call.CallNominatorBondLess? || call.CallRevokeNomination?
  }

  lemma CandidateReleases(s: State, v: AccountId, less: nat)
    requires CandidateBondLess(s, v, less).result.Ok?
    ensures CandidateBondLess(s, v, less).state.ledger == Unreserve(s.ledger, v, less)
  {
    hide Unreserve;
  }

  lemma NominatorReleases(s: State, acc: AccountId, v: AccountId, less: nat)
    requires NominatorBondLess(s, acc, v, less).result.Ok?
    ensures NominatorBondLess(s, acc, v, less).state.ledger == Unreserve(s.ledger, acc, less)
  {
    hide Unreserve, AdjustNominator, AdjustNomination;
  }

  lemma LeavingReleases(s: State, n: AccountId, v: AccountId)
    ensures NominatorLeavesValidator(s, n, v).result.Ok? <==> Backs(s.candidates, v, n)
    ensures Backs(s.candidates, v, n) ==>
              NominatorLeavesValidator(s, n, v).state.ledger == Unreserve(s.ledger, n, s.candidates[v].nominators[n])
  {
    hide Unreserve;
  }

  lemma RevokeReleases(s: State, acc: AccountId, v: AccountId)
    requires RevokeNomination(s, acc, v).result.Ok?
    ensures Backs(s.candidates, v, acc)
    ensures RevokeNomination(s, acc, v).state.ledger == Unreserve(s.ledger, acc, s.candidates[v].nominators[acc])
  {
    hide NominatorLeavesValidator;
    LeavingReleases(s, acc, v);
  }

  lemma OneRelease(s: State, who: AccountId, call: Call)
    requires MakesOneRelease(call) && Dispatch(s, who, call).result.Ok?
    ensures Dispatch(s, who, call).state.ledger == Unreserve(s.ledger, who, Asked(s, who, call))
  {
    hide CandidateBondLess, NominatorBondLess, RevokeNomination;
    match call
    case CallCandidateBondLess(less) => CandidateReleases(s, who, less);
    case CallNominatorBondLess(v, less) => NominatorReleases(s, who, v, less);
    case CallRevokeNomination(v) => RevokeReleases(s, who, v);
  }

  /** On every state, judged before the call: lowering a bond or revoking a nomination takes from what
      others have reserved exactly when the amount it gives back is more than this pallet holds. */
  lemma OneReleaseTakesExactly(s: State, who: AccountId, call: Call)
    requires MakesOneRelease(call) && Dispatch(s, who, call).result.Ok?
    ensures var l, l' := s.ledger, Dispatch(s, who, call).state.ledger;
      && (Elsewhere(l', who) < Elsewhere(l, who) <==> Max(Held(l, who), 0) < Releasable(l, who, Asked(s, who, call)))
      && forall a :: a != who ==> Elsewhere(l', a) == Elsewhere(l, a)
  {
    hide Dispatch, Elsewhere, Unreserve, Releasable, Held, Asked;
    OneRelease(s, who, call);
    ReleaseTakesExactly(s.ledger, who, Asked(s, who, call));
  }

  /** Every bond in `m` is with a candidate that lists it, with the same amount. */
  ghost predicate Listed(c: Candidates, n: AccountId, m: map<AccountId, int>) {
    forall v :: v in m ==> Backs(c, v, n) && c[v].nominators[n] == m[v] && 0 <= m[v]
  }

  /** From `l` to `r` as much of `amount` as is reserved has been given back to `n`. */
  ghost predicate GaveBack(l: Ledger, r: Ledger, n: AccountId, amount: int) {
    && Held(r, n) == Held(l, n) - Min(Reserved(l, n), amount)
    && Reserved(r, n) == Reserved(l, n) - Min(Reserved(l, n), amount)
  }

  lemma GaveBackTwice(l0: Ledger, l1: Ledger, l2: Ledger, n: AccountId, x: int, y: int)
    requires 0 <= x && 0 <= y && GaveBack(l0, l1, n, x) && GaveBack(l1, l2, n, y)
    ensures GaveBack(l0, l2, n, x + y)
  {
    hide Held, Reserved;
  }

  lemma GivesBack(l: Ledger, n: AccountId, amount: int)
    requires 0 <= amount
    ensures GaveBack(l, Unreserve(l, n, amount), n, amount) && GaveBack(l, l, n, 0)
  {
    hide Unreserve, Held, Reserved;
  }

  lemma OtherRecordsStay(s: State, n: AccountId, v: AccountId, w: AccountId)
    requires w != v && w in s.candidates
    ensures var c := NominatorLeavesValidator(s, n, v).state.candidates; w in c && c[w] == s.candidates[w]
  {
    hide Unreserve;
  }

  lemma OthersStillListed(s: State, n: AccountId, v: AccountId, m: map<AccountId, int>)
    requires Listed(s.candidates, n, m)
    ensures Listed(NominatorLeavesValidator(s, n, v).state.candidates, n, m - {v})
  {
    hide NominatorLeavesValidator;
    var c := NominatorLeavesValidator(s, n, v).state.candidates;
    forall w | w in m - {v} ensures Backs(c, w, n) && c[w].nominators[n] == m[w] && 0 <= m[w] {
      OtherRecordsStay(s, n, v, w);
    }
  }

  lemma {:induction false} LeaveEachGivesBack(s: State, n: AccountId, vs: seq<AccountId>, m: map<AccountId, int>)
    requires Keyed(vs, m) && Listed(s.candidates, n, m)
    ensures LeaveEach(s, n, vs).result.Ok? && GaveBack(s.ledger, LeaveEach(s, n, vs).state.ledger, n, Sum(m))
    decreases |vs|
  {
    hide NominatorLeavesValidator, Unreserve, GaveBack, Sum;
    if vs == [] {
      GivesBack(s.ledger, n, 0);
      assert m == map[];
      SumConstant(m, 0);
    } else {
      var v := vs[0];
      KeyedTail(vs, m);
      hide Keyed;
      LeavingReleases(s, n, v);
      OthersStillListed(s, n, v, m);
      var left := NominatorLeavesValidator(s, n, v).state;
      LeaveEachGivesBack(left, n, vs[1..], m - {v});
      GivesBack(s.ledger, n, m[v]);
      SumNonNegative(m - {v});
      SumRemove(m, v);
      GaveBackTwice(s.ledger, left.ledger, LeaveEach(s, n, vs).state.ledger, n, m[v], Sum(m - {v}));
    }
  }

  /** On every state in which the candidates list all bonds of a nominator's record: leaving is
      accepted, gives back the sum of those bonds as far as the reserve goes, and takes from others
      exactly when that is more than this pallet holds. */
  lemma LeaveTakesExactly(s: State, acc: AccountId)
    requires acc in s.nominators && Listed(s.candidates, acc, s.nominators[acc].nominations)
    ensures LeaveNominators(s, acc).result.Ok?
    ensures var l, l', sum := s.ledger, LeaveNominators(s, acc).state.ledger, Sum(s.nominators[acc].nominations);
      && GaveBack(l, l', acc, sum)
      && (Elsewhere(l', acc) < Elsewhere(l, acc) <==> Max(Held(l, acc), 0) < Min(Reserved(l, acc), sum))
  {
    hide LeaveEach, List, Listed, Keyed, Sum, Held, Reserved;
    var m := s.nominators[acc].nominations;
    ListKeyed(m);
    LeaveEachGivesBack(s, acc, List(m.Keys), m);
    NonNegativeSum(s.candidates, acc, m);
  }

  lemma NonNegativeSum(c: Candidates, n: AccountId, m: map<AccountId, int>)
    requires Listed(c, n, m)
    ensures 0 <= Sum(m)
  {
    SumNonNegative(m);
  }

  // Clean runs.

  lemma SolventHolds(s: State, a: AccountId)
    requires Solvent(s)
    ensures 0 <= Held(s.ledger, a) <= Reserved(s.ledger, a)
  {
    SoundBounds(s.candidates, s.nominators);
    hide Sound, Backs, Nominates;
    assert Held(s.ledger, a) == Owed(s.candidates, s.nominators, a);
  }

  /** Nobody loses anything reserved elsewhere, so the reserve falls by at most what this pallet holds. */
  ghost predicate OthersKeepTheirs(l: Ledger, l': Ledger) {
    forall a ::
      && 0 <= Elsewhere(l, a) == Elsewhere(l', a)
      && 0 <= Held(l, a) && Reserved(l, a) - Held(l, a) <= Reserved(l', a)
  }

  lemma SolventSpares(s: State, s': State)
    requires Solvent(s) && Solvent(s')
    requires forall a :: Reserved(s'.ledger, a) - Held(s'.ledger, a) == Reserved(s.ledger, a) - Held(s.ledger, a)
    ensures OthersKeepTheirs(s.ledger, s'.ledger)
  {
    hide Solvent, Held, Reserved;
    forall a
      ensures 0 <= Elsewhere(s.ledger, a) == Elsewhere(s'.ledger, a)
      ensures 0 <= Held(s.ledger, a) && Reserved(s.ledger, a) - Held(s.ledger, a) <= Reserved(s'.ledger, a)
    {
      SolventHolds(s, a);
      SolventHolds(s', a);
    }
  }

  /** On every clean run neither a call nor a transition with all its exits takes anything from what
      other pallets have reserved. */
  lemma OthersAreSpared(r: Run, i: nat)
    requires IsRun(r) && i < |r.events| && CleanUntil(r, i + 1)
    requires r.events[i].Transact? || EntersRound(At(r, i), r.events[i])
    ensures OthersKeepTheirs(At(r, i).stake.ledger, At(r, i + 1).stake.ledger)
  {
    hide Enabled, Next, Clean, Solvent, SnapshotsSound, OthersKeepTheirs, EntersRound;
    AlwaysClean(r, i);
    AlwaysClean(r, i + 1);
    StepAt(r, i);
    StepSpares(At(r, i), r.events[i]);
  }

  lemma StepSpares(c: Chain, e: Event)
    requires Enabled(c, e) && (e.Transact? || EntersRound(c, e))
    requires Solvent(c.stake) && Solvent(Next(c, e).stake)
    ensures OthersKeepTheirs(c.stake.ledger, Next(c, e).stake.ledger)
  {
    hide Solvent, Dispatch, NewRound, Selectable, OthersKeepTheirs, Reserved, Held, Free, Reward, Mintage;
    if e.Transact? {
      DispatchConserves(c.stake, e.who, e.call);
    } else {
      NewRoundConserves(c.stake, e.chosen);
    }
    SolventSpares(c.stake, Next(c, e).stake);
  }
}
