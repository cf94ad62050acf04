/** The counter of everything locked against the candidates' totals. The four calls that change an
    existing bond leave the counter alone, and departures subtract the changed bond from it. */
module TotalLocked {
  import opened Primitives
  import opened Sums
  import opened Ascending
  import opened Currency
  import opened Inflation
  import opened StakeSpec
  import opened Books
  import opened Solvency
  import opened Switching
  import opened Departures
  import opened Indexes
  import opened Chain
  import opened EveryRun
  import opened CleanRuns
  import opened ExitSchedule
  import opened Payout
  import opened Rounds

  /** What the counter lacks to be the sum of the candidates' totals. */
  ghost function Shortfall(s: State): int {
    Sum(Totals(s.candidates)) - s.total
  }

  /** One candidate rewritten while the counter moves by `counted`. */
  lemma PutShortfall(s: State, s': State, v: AccountId, counted: int)
    requires v in s'.candidates && s'.candidates == s.candidates[v := s'.candidates[v]] && s'.total == s.total + counted
    ensures Shortfall(s') == Shortfall(s) - counted + s'.candidates[v].total - if v in s.candidates then s.candidates[v].total else 0
  {
    hide Sum, Totals;
    TotalsUpdate(s.candidates, v, s'.candidates[v]);
  }

  lemma JoinCandidatesShortfall(s: State, acc: AccountId, fee: Perbill, bond: nat)
    ensures var o := JoinCandidates(s, acc, fee, bond); Shortfall(o.state) == Shortfall(s)
  {
    hide Shortfall, CanReserve;
    if JoinCandidates(s, acc, fee, bond).result.Ok? {
      PutShortfall(s, JoinCandidates(s, acc, fee, bond).state, acc, bond);
    } else {
      assert JoinCandidates(s, acc, fee, bond).state == s;
    }
  }

  lemma CandidateBondMoreShortfall(s: State, v: AccountId, more: nat)
    ensures var o := CandidateBondMore(s, v, more); Shortfall(o.state) == Shortfall(s) + if o.result.Ok? then more else 0
  {
    hide Shortfall, CanReserve;
    if CandidateBondMore(s, v, more).result.Ok? {
      PutShortfall(s, CandidateBondMore(s, v, more).state, v, 0);
    } else {
      assert CandidateBondMore(s, v, more).state == s;
    }
  }

  lemma CandidateBondLessShortfall(s: State, v: AccountId, less: nat)
    ensures var o := CandidateBondLess(s, v, less); Shortfall(o.state) == Shortfall(s) - if o.result.Ok? then less else 0
  {
    hide Shortfall, CanReserve;
    if CandidateBondLess(s, v, less).result.Ok? {
      PutShortfall(s, CandidateBondLess(s, v, less).state, v, 0);
    } else {
      assert CandidateBondLess(s, v, less).state == s;
    }
  }

  lemma LeaveCandidatesShortfall(s: State, v: AccountId)
    ensures var o := LeaveCandidates(s, v); Shortfall(o.state) == Shortfall(s)
  {
    hide Shortfall, CanReserve;
    if LeaveCandidates(s, v).result.Ok? {
      PutShortfall(s, LeaveCandidates(s, v).state, v, 0);
    } else {
      assert LeaveCandidates(s, v).state == s;
    }
  }

  lemma GoOfflineShortfall(s: State, v: AccountId)
    ensures var o := GoOffline(s, v); Shortfall(o.state) == Shortfall(s)
  {
    hide Shortfall, CanReserve;
    if GoOffline(s, v).result.Ok? {
      PutShortfall(s, GoOffline(s, v).state, v, 0);
    } else {
      assert GoOffline(s, v).state == s;
    }
  }

  lemma GoOnlineShortfall(s: State, v: AccountId)
    ensures var o := GoOnline(s, v); Shortfall(o.state) == Shortfall(s)
  {
    hide Shortfall, CanReserve;
    if GoOnline(s, v).result.Ok? {
      PutShortfall(s, GoOnline(s, v).state, v, 0);
    } else {
      assert GoOnline(s, v).state == s;
    }
  }

  lemma JoinNominatorsShortfall(s: State, acc: AccountId, v: AccountId, amount: nat)
    ensures var o := JoinNominators(s, acc, v, amount); Shortfall(o.state) == Shortfall(s)
  {
    hide Shortfall, CanReserve;
    if JoinNominators(s, acc, v, amount).result.Ok? {
      PutShortfall(s, JoinNominators(s, acc, v, amount).state, v, amount);
    } else {
      assert JoinNominators(s, acc, v, amount).state == s;
    }
  }

  lemma NominateNewShortfall(s: State, acc: AccountId, v: AccountId, amount: nat)
    ensures var o := NominateNew(s, acc, v, amount); Shortfall(o.state) == Shortfall(s)
  {
    hide Shortfall, CanReserve;
    if NominateNew(s, acc, v, amount).result.Ok? {
      PutShortfall(s, NominateNew(s, acc, v, amount).state, v, amount);
    } else {
      assert NominateNew(s, acc, v, amount).state == s;
    }
  }

  lemma NominatorBondMoreShortfall(s: State, acc: AccountId, v: AccountId, more: nat)
    requires Nominates(s.nominators, acc, v) ==> Backs(s.candidates, v, acc)
    ensures var o := NominatorBondMore(s, acc, v, more); Shortfall(o.state) == Shortfall(s) + if o.result.Ok? then more else 0
  {
    hide Shortfall, CanReserve;
    if NominatorBondMore(s, acc, v, more).result.Ok? {
      PutShortfall(s, NominatorBondMore(s, acc, v, more).state, v, 0);
    } else {
      assert NominatorBondMore(s, acc, v, more).state == s;
    }
  }

  lemma NominatorBondLessShortfall(s: State, acc: AccountId, v: AccountId, less: nat)
    requires Nominates(s.nominators, acc, v) ==> Backs(s.candidates, v, acc)
    ensures var o := NominatorBondLess(s, acc, v, less); Shortfall(o.state) == Shortfall(s) - if o.result.Ok? then less else 0
  {
    hide Shortfall, CanReserve;
    if NominatorBondLess(s, acc, v, less).result.Ok? {
      PutShortfall(s, NominatorBondLess(s, acc, v, less).state, v, 0);
    } else {
      assert NominatorBondLess(s, acc, v, less).state == s;
    }
  }

  lemma LeavesValidatorShortfall(s: State, n: AccountId, v: AccountId)
    ensures Shortfall(NominatorLeavesValidator(s, n, v).state) == Shortfall(s)
  {
    hide Shortfall;
    var o := NominatorLeavesValidator(s, n, v);
    if o.result.Ok? {
      PutShortfall(s, o.state, v, 0 - s.candidates[v].nominators[n]);
    } else {
      assert o.state == s;
    }
  }

  lemma RevokeNominationShortfall(s: State, acc: AccountId, v: AccountId)
    ensures Shortfall(RevokeNomination(s, acc, v).state) == Shortfall(s)
  {
    hide Sum, Totals, NominatorLeavesValidator;
    LeavesValidatorShortfall(s, acc, v);
    var o := RevokeNomination(s, acc, v);
    if o.result.Ok? {
      assert o.state.candidates == NominatorLeavesValidator(s, acc, v).state.candidates;
      assert o.state.total == NominatorLeavesValidator(s, acc, v).state.total;
    } else {
      assert o.state == s || o.state == NominatorLeavesValidator(s, acc, v).state;
    }
  }

  lemma LeaveNominatorsShortfall(s: State, acc: AccountId)
    requires Solvent(s)
    ensures Shortfall(LeaveNominators(s, acc).state) == Shortfall(s)
  {
    hide Solvent, Sum, Totals, Moved, Backs, LeaveNominators;
    LeaveNominatorsAllOrNothing(s, acc);
  }

  lemma SwitchShortfall(s: State, acc: AccountId, from: AccountId, to: AccountId)
    requires Solvent(s)
    ensures Shortfall(SwitchNomination(s, acc, from, to).state) == Shortfall(s)
  {
    hide LocalSums, Floors, Roles, Covered, Sum, Totals;
    if SwitchNomination(s, acc, from, to).result.Ok? {
      SwitchMovesSwappedAmount(s, acc, from, to);
    } else {
      assert SwitchNomination(s, acc, from, to).state == s;
    }
  }

  lemma MirroredAdjustments(s: State, acc: AccountId)
    requires Solvent(s)
    ensures forall v :: Nominates(s.nominators, acc, v) ==> Backs(s.candidates, v, acc)
  {
    hide LocalSums, Floors, Roles, Covered;
  }

  lemma GovernanceShortfall(s: State, e: Range<int>, r: Range<Perbill>)
    ensures Shortfall(SetStakingExpectations(s, e).state) == Shortfall(s)
    ensures Shortfall(SetInflation(s, r).state) == Shortfall(s)
  {
    hide IsValidExpectation, IsValidRate, AnnualToRound;
    var s1, s2 := SetStakingExpectations(s, e).state, SetInflation(s, r).state;
    assert s1 == s.(inflation := s1.inflation);
    assert s2 == s.(inflation := s2.inflation);
  }

  /** A call widens the shortfall by its adjustment and no more, even a switch that merges. */
  lemma DispatchShortfall(c: Chain, who: AccountId, call: Call)
    requires Solvent(c.stake)
    ensures Shortfall(Dispatch(c.stake, who, call).state) == Shortfall(c.stake) + Adjustment(c, Transact(who, call))
  {
    var s := c.stake;
    hide Solvent, Shortfall, Merges, SetStakingExpectations, SetInflation, JoinCandidates, LeaveCandidates, GoOffline,
      GoOnline, CandidateBondMore, CandidateBondLess, JoinNominators, LeaveNominators, NominateNew, SwitchNomination,
      RevokeNomination, NominatorBondMore, NominatorBondLess;
    match call
    case CallSetStakingExpectations(e) => GovernanceShortfall(s, e, Range(0, 0, 0));
    case CallSetInflation(r) => GovernanceShortfall(s, Range(0, 0, 0), r);
    case CallJoinCandidates(fee, bond) => JoinCandidatesShortfall(s, who, fee, bond);
    case CallLeaveCandidates => LeaveCandidatesShortfall(s, who);
    case CallGoOffline => GoOfflineShortfall(s, who);
    case CallGoOnline => GoOnlineShortfall(s, who);
    case CallCandidateBondMore(more) => CandidateBondMoreShortfall(s, who, more);
    case CallCandidateBondLess(less) => CandidateBondLessShortfall(s, who, less);
    case CallJoinNominators(v, amount) => JoinNominatorsShortfall(s, who, v, amount);
    case CallLeaveNominators => LeaveNominatorsShortfall(s, who);
    case CallNominateNew(v, amount) => NominateNewShortfall(s, who, v, amount);
    case CallSwitchNomination(from, to) => SwitchShortfall(s, who, from, to);
    case CallRevokeNomination(v) => RevokeNominationShortfall(s, who, v);
    case CallNominatorBondMore(v, more) =>
      MirroredAdjustments(s, who);
      NominatorBondMoreShortfall(s, who, v, more);
    case CallNominatorBondLess(v, less) =>
      MirroredAdjustments(s, who);
      NominatorBondLessShortfall(s, who, v, less);
  }

  lemma NewRoundShortfall(s: State, chosen: set<AccountId>)
    requires Selectable(s, chosen)
    ensures Shortfall(NewRound(s, chosen)) == Shortfall(s)
    ensures NewRound(s, chosen).candidates == BeforeSelection(s).candidates
    ensures NewRound(s, chosen).total == BeforeSelection(s).total
  {
    hide BeforeSelection, BestChoice, DueExits, Sum, Totals;
    BeforeSelectionFrame(s);
  }

  lemma StepShortfall(c: Chain, e: Event)
    requires Solvent(c.stake) && Enabled(c, e)
    ensures Shortfall(Next(c, e).stake) == Shortfall(c.stake) + Adjustment(c, e)
  {
    hide Solvent, Dispatch, NewRound, Selectable, Sum, Totals;
    match e
    case Transact(who, call) => hide Shortfall; DispatchShortfall(c, who, call);
    case Finalize(chosen) =>
      if c.block % cfg.blocksPerRound == 0 {
        hide Shortfall;
        NewRoundShortfall(c.stake, chosen);
      }
    case SetAuthor(a, random, relay) =>
    case Initialize =>
    case SetEligible(_) =>
    case Others(_) =>
  }

  lemma EmptyShortfall(g: Genesis)
    ensures Shortfall(Empty(g)) == 0
  {
    assert Totals(map[]) == map[];
  }

  lemma {:induction false} JoinAllShortfall(s: State, stakers: seq<Staker>)
    requires JoinAll(s, stakers).Some?
    ensures Shortfall(JoinAll(s, stakers).value) == Shortfall(s)
    decreases |stakers|
  {
    hide Shortfall, JoinNominators, JoinCandidates;
    if stakers != [] {
      var x := stakers[0];
      match x.nominated
      case Some(v) => JoinNominatorsShortfall(s, x.actor, v, x.balance); JoinAllShortfall(JoinAtGenesis(s, x), stakers[1..]);
      case None => JoinCandidatesShortfall(s, x.actor, 0, x.balance); JoinAllShortfall(JoinAtGenesis(s, x), stakers[1..]);
    }
  }

  lemma StartShortfall(g: Genesis)
    requires GenesisAccepted(g)
    ensures Shortfall(Start(g).stake) == 0
  {
    hide JoinAll, BestChoice, Sum, Totals;
    EmptyShortfall(g);
    JoinAllShortfall(Empty(g), g.stakers);
  }

  /** On every clean run the total locked, plus all bond_more less all bond_less, is the sum of the
      candidates' totals. So it is that sum exactly when they cancel out, and not negative
      exactly when their net is at most that sum. */
  lemma {:induction false} TotalLockedLedger(r: Run, i: nat)
    requires IsRun(r) && i <= |r.events| && CleanUntil(r, i)
    ensures At(r, i).stake.total + NetAdjustment(r, i) == Sum(Totals(At(r, i).stake.candidates))
    ensures 0 <= At(r, i).stake.total <==> NetAdjustment(r, i) <= Sum(Totals(At(r, i).stake.candidates))
    decreases i
  {
    hide Enabled, Next, Start, GenesisAccepted, Clean, Adjustment, Sum, Totals;
    PrefixIsRun(r, i);
    if i == 0 {
      StartShortfall(r.genesis);
    } else {
      TotalLockedLedger(r, i - 1);
      AlwaysClean(r, i - 1);
      StepAt(r, i - 1);
      StepShortfall(At(r, i - 1), r.events[i - 1]);
    }
  }

  // The subtraction at an exit.

  lemma {:induction false} ExitEachAppend(s: State, xs: seq<AccountId>, ys: seq<AccountId>)
    ensures ExitEach(s, xs + ys) == ExitEach(ExitEach(s, xs), ys)
    decreases |xs|
  {
    hide ExitOne;
    if xs == [] {
      assert xs + ys == ys;
    } else {
      assert (xs + ys)[0] == xs[0] && (xs + ys)[1..] == xs[1..] + ys;
      ExitEachAppend(ExitOne(s, xs[0]), xs[1..], ys);
    }
  }

  lemma TotalsFall(c: Candidates, c': Candidates)
    requires forall v :: v in c' ==> v in c && c'[v] == c[v]
    requires forall v :: v in c ==> 0 <= c[v].total
    ensures Sum(Totals(c')) <= Sum(Totals(c))
  {
    SumMonotone(Totals(c'), Totals(c));
  }

  lemma TotalsNonNegative(s: State)
    requires Solvent(s)
    ensures forall v :: v in s.candidates ==> 0 <= s.candidates[v].total
  {
    hide Solvent;
    forall v | v in s.candidates ensures 0 <= s.candidates[v].total {
      CandidateSnapshotSound(s, v);
      SumNonNegative(s.candidates[v].nominators);
    }
  }

  /** Exits only take from the counter: it is never lower on the way than after the last of them. */
  lemma ExitTotalsFall(s: State, xs: seq<AccountId>, k: nat)
    requires Solvent(s) && k <= |xs|
    ensures ExitEach(s, xs).total <= ExitEach(s, xs[..k]).total <= s.total
  {
    hide ExitEach, Solvent, Sum, Totals;
    assert xs == xs[..k] + xs[k..];
    ExitEachAppend(s, xs[..k], xs[k..]);
    var mid := ExitEach(s, xs[..k]);
    ExitEachSolvent(s, xs[..k]);
    ExitEachFrame(s, xs[..k]);
    ExitEachFrame(mid, xs[k..]);
    TotalsNonNegative(s);
    TotalsNonNegative(mid);
    TotalsFall(s.candidates, mid.candidates);
    TotalsFall(mid.candidates, ExitEach(mid, xs[k..]).candidates);
  }

  /** The exits of the transition out of `s`, in the order in which they are executed. */
  ghost function ExitOrder(s: State): seq<AccountId> {
    List(DueExits(s, s.round + 1))
  }

  /** The counter after the payment and the first `k` of those exits. */
  ghost function TotalAfterExits(s: State, k: nat): int
    requires k <= |ExitOrder(s)|
  {
    ExitEach(PayStakers(s, s.round + 1), ExitOrder(s)[..k]).total
  }

  /** No exit of the transition out of `s` takes more from the counter than is in it. */
  ghost predicate NoExitUnderflows(s: State) {
    forall k: nat :: 1 <= k <= |ExitOrder(s)| ==> 0 <= TotalAfterExits(s, k)
  }

  /** The totals of the candidates that this transition leaves. */
  ghost function RemainingTotals(s: State): int {
    Sum(Totals(s.candidates - DueExits(s, s.round + 1)))
  }

  lemma LastExitTotal(s: State, chosen: set<AccountId>)
    requires Selectable(s, chosen)
    ensures TotalAfterExits(s, |ExitOrder(s)|) == NewRound(s, chosen).total
  {
    var xs := ExitOrder(s);
    assert xs[..|xs|] == xs;
    hide PayStakers, ExitEach, BestChoice, List;
    PayFrame(s, s.round + 1);
  }

  lemma ExitTotalsNonNegative(s: State, chosen: set<AccountId>)
    requires Solvent(s) && Selectable(s, chosen)
    ensures NoExitUnderflows(s) <==> ExitOrder(s) == [] || 0 <= NewRound(s, chosen).total
  {
    hide PayStakers, ExitEach, Solvent, Selectable, NewRound, ExitOrder;
    LastExitTotal(s, chosen);
    PayStakersSolvent(s, s.round + 1);
    forall k: nat | k <= |ExitOrder(s)| ensures NewRound(s, chosen).total <= TotalAfterExits(s, k) {
      ExitTotalsFall(PayStakers(s, s.round + 1), ExitOrder(s), k);
      assert ExitOrder(s)[..|ExitOrder(s)|] == ExitOrder(s);
    }
  }

  /** On every clean run, before a transition: each of the subtractions that its exits make from the
      total locked stays non-negative exactly when there are none, or all bond_more less all bond_less
      so far is at most the totals of the candidates that remain. */
  lemma ExitSubtractionsExactly(r: Run, i: nat)
    requires IsRun(r) && i < |r.events| && CleanUntil(r, i)
    requires EntersRound(At(r, i), r.events[i])
    ensures var s := At(r, i).stake;
      NoExitUnderflows(s) <==> ExitOrder(s) == [] || NetAdjustment(r, i) <= RemainingTotals(s)
  {
    hide Kept, CleanKept, Sum, Totals, NoExitUnderflows, ExitOrder, RemainingTotals, Clean, EntersRound, Next, Enabled;
    AlwaysKept(r, i);
    AlwaysClean(r, i);
    StepAt(r, i);
    TotalLockedLedger(r, i);
    EntryTotal(At(r, i), r.events[i], NetAdjustment(r, i));
  }

  lemma EntryTotal(c: Chain, e: Event, net: int)
    requires Kept(c) && CleanKept(c) && Enabled(c, e) && EntersRound(c, e)
    requires c.stake.total + net == Sum(Totals(c.stake.candidates))
    ensures NoExitUnderflows(c.stake) <==> ExitOrder(c.stake) == [] || net <= RemainingTotals(c.stake)
  {
    hide Indexed, RoundsKept, Clock, Solvent, SnapshotsSound, Sum, Totals, NoExitUnderflows, ExitOrder, NewRound, Selectable, DueExits;
    ExitTotalsNonNegative(c.stake, e.chosen);
    NewRoundIndexed(c.stake, e.chosen);
    NewRoundShortfall(c.stake, e.chosen);
  }

  /** The same before a nominator leaves: taking its total out of the total locked stays non-negative
      exactly when the net adjustment is at most what the candidates' totals then are. */
  lemma DepartureSubtractionExactly(r: Run, i: nat, acc: AccountId)
    requires IsRun(r) && i <= |r.events| && CleanUntil(r, i) && acc in At(r, i).stake.nominators
    ensures var s := At(r, i).stake;
      0 <= LeaveNominators(s, acc).state.total
      <==> NetAdjustment(r, i) <= Sum(Totals(s.candidates)) - s.nominators[acc].total
  {
    hide Clean, Solvent, SnapshotsSound, Sum, Totals, LeaveNominators;
    AlwaysClean(r, i);
    TotalLockedLedger(r, i);
    LeaveTotal(At(r, i).stake, acc);
  }

  lemma LeaveTotal(s: State, acc: AccountId)
    requires Solvent(s) && acc in s.nominators
    ensures LeaveNominators(s, acc).state.total == s.total - s.nominators[acc].total
  {
    hide Solvent, Sum, Totals, LeaveNominators, Moved, Backs;
    LeaveNominatorsAllOrNothing(s, acc);
  }

  /** And before a nomination is revoked: an accepted call takes the nomination out of the total
      locked without underflow exactly when the net adjustment is at most what the totals then are. */
  lemma RevokeSubtractionExactly(r: Run, i: nat, acc: AccountId, v: AccountId)
    requires IsRun(r) && i <= |r.events| && CleanUntil(r, i)
    requires RevokeNomination(At(r, i).stake, acc, v).result.Ok?
    ensures var s := At(r, i).stake;
      && Nominates(s.nominators, acc, v)
      && (0 <= RevokeNomination(s, acc, v).state.total
          <==> NetAdjustment(r, i) <= Sum(Totals(s.candidates)) - s.nominators[acc].nominations[v])
  {
    hide Clean, Solvent, SnapshotsSound, Sum, Totals, RevokeNomination;
    AlwaysClean(r, i);
    TotalLockedLedger(r, i);
    RevokeTotal(At(r, i).stake, acc, v);
  }

  lemma RevokeTotal(s: State, acc: AccountId, v: AccountId)
    requires Solvent(s) && RevokeNomination(s, acc, v).result.Ok?
    ensures Nominates(s.nominators, acc, v)
    ensures RevokeNomination(s, acc, v).state.total == s.total - s.nominators[acc].nominations[v]
  {
    hide Solvent, NominatorLeavesValidator;
    assert Nominates(s.nominators, acc, v);
    ExistingBond(s, v, acc);
    LeavesValidatorTotal(s, acc, v);
  }

  lemma LeavesValidatorTotal(s: State, n: AccountId, v: AccountId)
    requires Backs(s.candidates, v, n)
    ensures NominatorLeavesValidator(s, n, v).state.total == s.total - s.candidates[v].nominators[n]
  {
    hide Unreserve;
  }
}
