/** Runs that show what the code lets happen: the total locked going below zero, on a departure and on
    an exit; a switch that merges; a candidate over its cap of nominators. Each is a run from a
    genesis with two candidates at the floor. */
module Witnesses {
  import opened Primitives
  import opened Sums
  import opened Ascending
  import opened Currency
  import opened Inflation
  import opened AuthorDraw
  import opened StakeSpec
  import opened Books
  import opened Solvency
  import opened Switching
  import opened Selection
  import opened Indexes
  import opened Rounds
  import opened Chain
  import opened EveryRun
  import opened ExitSchedule
  import opened Outcomes
  import opened Conservation
  import opened CleanRuns
  import opened OtherReserves
  import opened StaleStake
  import opened TotalLocked
  import opened NominatorCap
  import opened Liveness

  const BOND: nat := cfg.minValidatorStk
  const NOMINATION: nat := cfg.minNominatorStk

  // The opening.

  ghost function Rich(a: AccountId, f: nat): Account {
    Account(f, 0)
  }

  /** Accounts 0 to n - 1, each with `f` free. */
  ghost function Balances(n: nat, f: nat): Ledger {
    Ledger(map a: nat | 0 <= a < n :: Rich(a, f), n * f, map[])
  }

  ghost function TwoCandidates(): Candidates {
    map[1 := Candidate(1, 0, BOND, map[], BOND, Active), 2 := Candidate(2, 0, BOND, map[], BOND, Active)]
  }

  ghost function Opened(n: nat, f: nat, chosen: set<AccountId>): Genesis {
    Genesis(Balances(n, f), InflationInfo(Range(0, 0, 0), Range(0, 0, 0)), [Staker(1, None, BOND), Staker(2, None, BOND)], chosen)
  }

  /** The first block is open, 1 and 2 are candidates at the floor and nothing else has happened. */
  ghost predicate TwoStaked(c: Chain, n: nat, f: nat) {
    && c.open && c.author == None && c.ratio == 50 && c.block == 1 && c.stake.round == 1
    && c.stake.candidates == TwoCandidates() && c.stake.nominators == map[]
    && c.stake.pool == map[1 := BOND, 2 := BOND] && c.stake.exits == map[] && c.stake.total == 2 * BOND
    && (forall a :: 3 <= a < n ==> CanReserve(c.stake.ledger, a, f))
    && (BOND <= f ==> CanReserve(c.stake.ledger, 1, f - BOND))
    && (cfg.maxValidators != 0 ==> c.stake.validators != [])
  }

  lemma CandidateJoins(s: State, acc: AccountId, bond: nat)
    requires acc !in s.candidates && acc !in s.nominators && acc !in s.pool
    requires cfg.minValidatorStk <= bond && CanReserve(s.ledger, acc, bond)
    ensures JoinCandidates(s, acc, 0, bond) == Done(s.(
              candidates := s.candidates[acc := Candidate(acc, 0, bond, map[], bond, Active)],
              pool := s.pool[acc := bond], total := s.total + bond, ledger := Reserve(s.ledger, acc, bond)))
  {
  }

  lemma TwoJoin(n: nat, f: nat)
    requires 3 <= n && BOND <= f
    ensures var g := Opened(n, f, {});
      var l := Reserve(Balances(n, f), 1, BOND);
      && CanReserve(Balances(n, f), 1, BOND) && CanReserve(l, 2, BOND)
      && JoinAll(Empty(g), g.stakers) == Some(Empty(g).(
           candidates := TwoCandidates(), pool := map[1 := BOND, 2 := BOND], total := 2 * BOND, ledger := Reserve(l, 2, BOND)))
  {
    var g := Opened(n, f, {});
    var s := Empty(g);
    CandidateJoins(s, 1, BOND);
    var s1 := JoinCandidates(s, 1, 0, BOND).state;
    CandidateJoins(s1, 2, BOND);
    hide JoinCandidates;
    var s2 := JoinCandidates(s1, 2, 0, BOND).state;
    assert JoinAtGenesis(s, g.stakers[0]) == s1 && JoinAtGenesis(s1, g.stakers[1]) == s2;
    assert JoinAll(s2, []) == Some(s2);
    assert g.stakers[1..][1..] == [];
  }

  lemma OpenedAccepted(n: nat, f: nat) returns (g: Genesis)
    requires 3 <= n && BOND <= f
    ensures g == Opened(n, f, g.chosen) && GenesisAccepted(g)
    ensures cfg.maxValidators != 0 ==> g.chosen != {}
  {
    TwoJoin(n, f);
    var pool: map<AccountId, int> := map[1 := BOND, 2 := BOND];
    BestChoiceExists(pool);
    var chosen :| BestChoice(pool, chosen);
    g := Opened(n, f, chosen);
    assert Empty(g) == Empty(Opened(n, f, {}));
    hide JoinAll, BestChoice, Balances;
    ChosenFromTwo(pool, chosen);
  }

  lemma ChosenFromTwo(pool: map<AccountId, int>, chosen: set<AccountId>)
    requires BestChoice(pool, chosen) && pool != map[]
    ensures chosen <= pool.Keys && (cfg.maxValidators != 0 ==> chosen != {})
  {
    assert |pool| == 0 <==> pool == map[];
  }

  /** One step after the last. */
  lemma Take(r: Run, e: Event) returns (r': Run)
    requires IsRun(r) && Enabled(At(r, |r.events|), e)
    ensures r' == Run(r.genesis, r.events + [e]) && IsRun(r') && |r'.events| == |r.events| + 1
    ensures At(r', |r.events|) == At(r, |r.events|) && At(r', |r'.events|) == Next(At(r, |r.events|), e)
    ensures CleanUntil(r, |r.events|) ==> CleanUntil(r', |r.events|)
    ensures CleanUntil(r, |r.events|) && Clean(At(r, |r.events|), e) ==> CleanUntil(r', |r'.events|)
    ensures NetAdjustment(r', |r'.events|) == NetAdjustment(r, |r.events|) + Adjustment(At(r, |r.events|), e)
  {
    hide Enabled, Next, Clean, Adjustment;
    r' := Run(r.genesis, r.events + [e]);
    ExtendRun(r, e);
    SamePast(r, r', |r.events|);
  }

  lemma {:induction false} SamePast(r: Run, r': Run, i: nat)
    requires IsRun(r) && IsRun(r') && i <= |r.events| <= |r'.events|
    requires forall k :: 0 <= k <= |r.events| ==> At(r', k) == At(r, k)
    requires forall k :: 0 <= k < |r.events| ==> r'.events[k] == r.events[k]
    ensures NetAdjustment(r', i) == NetAdjustment(r, i)
    decreases i
  {
    hide Enabled, Next, Adjustment;
    if i > 0 {
      SamePast(r, r', i - 1);
    }
  }

  lemma Opening(n: nat, f: nat) returns (r: Run)
    requires 3 <= n && BOND <= f
    ensures IsRun(r) && CleanUntil(r, |r.events|) && NetAdjustment(r, |r.events|) == 0
    ensures At(r, |r.events|).open && TwoStaked(At(r, |r.events|), n, f)
  {
    var g := OpenedAccepted(n, f);
    var r0 := Run(g, []);
    assert IsRun(r0) && At(r0, 0) == Start(g) && CleanUntil(r0, 0) && NetAdjustment(r0, 0) == 0 by { hide GenesisAccepted, Start; }
    r := Take(r0, Initialize);
    StartStaked(g, n, f);
  }

  lemma LeftFree(n: nat, f: nat)
    requires 3 <= n && BOND <= f
    ensures CanReserve(Balances(n, f), 1, BOND) && CanReserve(Reserve(Balances(n, f), 1, BOND), 2, BOND)
    ensures var l := Reserve(Reserve(Balances(n, f), 1, BOND), 2, BOND);
      (forall a :: 3 <= a < n ==> CanReserve(l, a, f)) && CanReserve(l, 1, f - BOND)
  {
  }

  lemma StartStaked(g: Genesis, n: nat, f: nat)
    requires 3 <= n && BOND <= f && g == Opened(n, f, g.chosen) && GenesisAccepted(g)
    requires cfg.maxValidators != 0 ==> g.chosen != {}
    ensures TwoStaked(Next(Start(g), Initialize), n, f)
  {
    TwoJoin(n, f);
    LeftFree(n, f);
    assert Empty(g) == Empty(Opened(n, f, {}));
    assert g.chosen != {} ==> List(g.chosen) != [];
    hide GenesisAccepted, JoinAll, Balances, Reserve, CanReserve, TwoCandidates, List, GenesisStake;
    StartOpened(g);
    hide Start, Next;
    GenesisFrame(g);
  }

  lemma StartOpened(g: Genesis)
    requires GenesisAccepted(g)
    ensures Enabled(Start(g), Initialize) && Next(Start(g), Initialize) == Chain(GenesisStake(g), None, 50, 1, true)
  {
    hide GenesisAccepted, GenesisStake;
  }

  lemma GenesisFrame(g: Genesis)
    requires GenesisAccepted(g)
    ensures JoinAll(Empty(g), g.stakers).Some?
    ensures var s, s' := JoinAll(Empty(g), g.stakers).value, GenesisStake(g);
      s' == s.(round := 1, atStake := s'.atStake, validators := List(g.chosen), staked := s'.staked)
  {
    hide JoinAll, BestChoice, List, SnapshotOf;
  }

  /** A call in the open block. */
  lemma Say(r: Run, who: AccountId, call: Call) returns (r': Run)
    requires IsRun(r) && At(r, |r.events|).open
    ensures r' == Run(r.genesis, r.events + [Transact(who, call)]) && IsRun(r')
    ensures |r'.events| == |r.events| + 1 && r'.events[|r.events|] == Transact(who, call)
    ensures At(r', |r.events|) == At(r, |r.events|)
    ensures At(r', |r'.events|) == At(r, |r.events|).(stake := Dispatch(At(r, |r.events|).stake, who, call).state)
    ensures CleanUntil(r, |r.events|) ==> CleanUntil(r', |r.events|)
    ensures CleanUntil(r, |r.events|) && CleanCall(At(r, |r.events|).stake, who, call) ==> CleanUntil(r', |r'.events|)
    ensures NetAdjustment(r', |r'.events|) == NetAdjustment(r, |r.events|) + Adjustment(At(r, |r.events|), Transact(who, call))
  {
    hide Dispatch, CleanCall, Adjustment, MayAuthor;
    r' := Take(r, Transact(who, call));
  }

  lemma OnlySwitchesMayBeUnclean(s: State, who: AccountId, call: Call)
    requires !call.CallSwitchNomination?
    ensures CleanCall(s, who, call)
  {
  }

  // The total locked goes below zero when a nominator leaves.

  lemma NominatorJoins(s: State, acc: AccountId, v: AccountId, amount: nat)
    requires acc !in s.nominators && acc !in s.candidates && v in s.candidates && acc !in s.candidates[v].nominators
    requires cfg.minNominatorStk <= amount && CanReserve(s.ledger, acc, amount)
    requires |s.candidates[v].nominators| < cfg.maxNominatorsPerValidator
    ensures var o, c := JoinNominators(s, acc, v, amount), s.candidates[v];
      && o.result.Ok?
      && o.state.candidates == s.candidates[v := c.(nominators := c.nominators[acc := amount], total := c.total + amount)]
      && o.state.nominators == s.nominators[acc := Nominator(map[v := amount], amount)]
      && o.state.total == s.total + amount && o.state.ledger == Reserve(s.ledger, acc, amount)
  {
    hide CanReserve, Reserve;
  }

  lemma NominatorAdds(s: State, acc: AccountId, v: AccountId, more: nat)
    requires acc in s.nominators && v in s.candidates && v in s.nominators[acc].nominations && CanReserve(s.ledger, acc, more)
    ensures var o := NominatorBondMore(s, acc, v, more);
      && o.result.Ok? && o.state.total == s.total
      && acc in o.state.nominators && o.state.nominators[acc].total == s.nominators[acc].total + more
  {
    hide CanReserve, Reserve;
  }

  lemma StillFree(l: Ledger, a: AccountId, v: nat, more: nat)
    requires CanReserve(l, a, v + more)
    ensures CanReserve(l, a, v) && CanReserve(Reserve(l, a, v), a, more)
  {
  }

  lemma NominatorOverstakes(c: Chain, more: nat)
    requires 1 <= cfg.maxNominatorsPerValidator && TwoStaked(c, 4, BOND + NOMINATION + more)
    ensures var s1 := Dispatch(c.stake, 3, CallJoinNominators(1, NOMINATION)).state;
      var s2 := Dispatch(s1, 3, CallNominatorBondMore(1, more)).state;
      && s2.total == 2 * BOND + NOMINATION && 3 in s2.nominators && s2.nominators[3].total == NOMINATION + more
  {
    hide JoinNominators, NominatorBondMore, CanReserve, Reserve;
    EnoughFor(c.stake.ledger, 3, NOMINATION + more, BOND);
    StillFree(c.stake.ledger, 3, NOMINATION, more);
    NominatorJoins(c.stake, 3, 1, NOMINATION);
    NominatorAdds(JoinNominators(c.stake, 3, 1, NOMINATION).state, 3, 1, more);
  }

  /** A nominator raises a small nomination beyond all that the candidates bonded themselves, which
      the total locked does not count, and leaves, which it does: the run is clean, and the total ends
      below zero by one. */
  lemma DepartureTakesMoreThanTotal() returns (r: Run)
    requires 1 <= cfg.maxNominatorsPerValidator
    ensures IsRun(r) && CleanUntil(r, |r.events|) && |r.events| > 0
    ensures r.events[|r.events| - 1] == Transact(3, CallLeaveNominators)
    ensures 0 <= At(r, |r.events| - 1).stake.total && At(r, |r.events|).stake.total == -1
  {
    hide Next, Enabled, Adjustment, TwoStaked, Solvent, SnapshotsSound;
    var more := 2 * BOND + 1;
    var r0 := Opening(4, BOND + NOMINATION + more);
    NominatorOverstakes(At(r0, |r0.events|), more);
    hide Dispatch, CleanCall;
    OnlySwitchesMayBeUnclean(At(r0, |r0.events|).stake, 3, CallJoinNominators(1, NOMINATION));
    var r1 := Say(r0, 3, CallJoinNominators(1, NOMINATION));
    OnlySwitchesMayBeUnclean(At(r1, |r1.events|).stake, 3, CallNominatorBondMore(1, more));
    var r2 := Say(r1, 3, CallNominatorBondMore(1, more));
    AlwaysClean(r2, |r2.events|);
    OnlySwitchesMayBeUnclean(At(r2, |r2.events|).stake, 3, CallLeaveNominators);
    r := Say(r2, 3, CallLeaveNominators);
    LeaveDispatched(At(r2, |r2.events|).stake, 3);
  }

  lemma LeaveDispatched(s: State, acc: AccountId)
    requires Solvent(s) && acc in s.nominators
    ensures Dispatch(s, acc, CallLeaveNominators).state.total == s.total - s.nominators[acc].total
  {
    hide Solvent, LeaveNominators;
    LeaveTotal(s, acc);
  }

  lemma EnoughFor(l: Ledger, a: AccountId, v: nat, rest: nat)
    requires CanReserve(l, a, v + rest)
    ensures CanReserve(l, a, v)
  {
  }

  // The total locked goes below zero at an exit.

  ghost function Stayer(): Candidates {
    map[2 := Candidate(2, 0, BOND, map[], BOND, Active)]
  }

  ghost function LeaverAndStayer(more: nat): Candidates {
    map[1 := Candidate(1, 0, BOND + more, map[], BOND + more, Leaving(1 + cfg.bondDuration)),
        2 := Candidate(2, 0, BOND, map[], BOND, Active)]
  }

  /** Candidate 1 has bonded `more` and is leaving, 2 is as it was. */
  ghost predicate OneLeaves(c: Chain, more: nat) {
    && c.stake.candidates == LeaverAndStayer(more)
    && c.stake.pool == map[2 := BOND] && c.stake.total == 2 * BOND && c.stake.round == 1
  }

  lemma CandidateLeaves(c: Chain, more: nat)
    requires TwoStaked(c, 3, BOND + more)
    ensures var s1 := Dispatch(c.stake, 1, CallCandidateBondMore(more));
      var s2 := Dispatch(s1.state, 1, CallLeaveCandidates);
      && s1.result.Ok? && s2.state.validators == c.stake.validators && OneLeaves(c.(stake := s2.state), more)
  {
    hide CanReserve, Reserve;
    var s := c.stake;
    assert CandidateBondMore(s, 1, more).result.Ok?;
    var s1 := CandidateBondMore(s, 1, more).state;
    assert s1.candidates == s.candidates[1 := Candidate(1, 0, BOND + more, map[], BOND + more, Active)];
    assert LeaveCandidates(s1, 1).result.Ok?;
    assert map[1 := BOND + more, 2 := BOND] - {1} == map[2 := BOND];
  }

  /** The opening in which candidate 1 bonds `more` and asks to leave. */
  lemma LeaverOpening(more: nat) returns (r: Run)
    requires cfg.maxValidators != 0
    ensures IsRun(r) && CleanUntil(r, |r.events|) && NetAdjustment(r, |r.events|) == more
    ensures var c := At(r, |r.events|);
      c.open && c.author == None && c.ratio == 50 && c.block == 1 && c.stake.validators != [] && OneLeaves(c, more)
  {
    hide Next, Enabled, OneLeaves, Balances;
    var r0 := Opening(3, BOND + more);
    CandidateLeaves(At(r0, |r0.events|), more);
    hide Dispatch;
    var r1 := Say(r0, 1, CallCandidateBondMore(more));
    r := Say(r1, 1, CallLeaveCandidates);
  }

  /** Nothing but blocks, until the last one of the round before the exit. */
  lemma UntilExit(r: Run) returns (r': Run)
    requires IsRun(r) && cfg.maxValidators != 0
    requires var c := At(r, |r.events|);
      c.open && c.author == None && c.ratio == 50 && c.block == 1 && c.stake.validators != [] && c.stake.pool != map[]
    ensures IsRun(r') && GoesOn(r, r') && |r.events| < |r'.events| && EntersRound(At(r', |r'.events| - 1), r'.events[|r'.events| - 1])
    ensures At(r', |r'.events|).stake.round == 1 + cfg.bondDuration
  {
    hide OnlyExits, Indexed, RoundsKept, GoesOn, Next, Enabled;
    var n: nat := cfg.bondDuration * cfg.blocksPerRound;
    AtLeastOne(cfg.bondDuration, cfg.blocksPerRound);
    GoesOnItself(r);
    var r1 := FinishBlock(r, r);
    BlockDone(r, r1);
    r' := AnyNumberOfBlocks(r, r1, n - 1);
    AlwaysKept(r', |r'.events|);
    DivUnique(n, cfg.blocksPerRound, cfg.bondDuration, 0);
  }

  lemma AtLeastOne(a: nat, b: nat)
    requires 1 <= a && 1 <= b
    ensures 1 <= a * b
  {
  }

  lemma BlockDone(r: Run, r1: Run)
    requires IsRun(r) && IsRun(r1) && GoesOn(r, r1)
    ensures At(r1, |r1.events|).stake.pool == At(r, |r.events|).stake.pool && At(r1, |r1.events|).ratio == At(r, |r.events|).ratio
    ensures |r.events| <= |r1.events|
  {
    assert OnlyExits(At(r, |r.events|), At(r1, |r1.events|));
  }

  /** A candidate that bonds more than all the others have, which the total locked does not count,
      and leaves, takes more out of the total at its exit than is in it: the run is clean, its last
      step is the transition that executes the exit, and only this step takes the total below zero. */
  lemma ExitTakesMoreThanTotal() returns (r: Run)
    requires cfg.maxValidators != 0
    ensures IsRun(r) && CleanUntil(r, |r.events|) && |r.events| > 0
    ensures EntersRound(At(r, |r.events| - 1), r.events[|r.events| - 1])
    ensures DueExits(At(r, |r.events| - 1).stake, At(r, |r.events|).stake.round) == {1}
    ensures 0 <= At(r, |r.events| - 1).stake.total && At(r, |r.events|).stake.total == -1
  {
    hide Next, Enabled, EntersRound, GoesOn, Sum, Totals, Kept, CleanKept, OneLeaves;
    var more := BOND + 1;
    var r0 := LeaverOpening(more);
    OthersInPool(At(r0, |r0.events|), more);
    r := UntilExit(r0);
    GoesOnClean(r0, r, |r.events| - 1);
    GoesOnClean(r0, r, |r.events|);
    TotalLockedLedger(r, |r.events| - 1);
    TotalLockedLedger(r, |r.events|);
    ExitChangesTotal(r0, r, more);
  }

  lemma OthersInPool(c: Chain, more: nat)
    requires OneLeaves(c, more)
    ensures c.stake.pool != map[]
  {
    assert 2 in c.stake.pool;
  }

  lemma ExitChangesTotal(r0: Run, r: Run, more: nat)
    requires IsRun(r0) && IsRun(r) && GoesOn(r0, r) && |r0.events| < |r.events| && OneLeaves(At(r0, |r0.events|), more)
    requires EntersRound(At(r, |r.events| - 1), r.events[|r.events| - 1])
    requires At(r, |r.events|).stake.round == 1 + cfg.bondDuration
    ensures Sum(Totals(At(r, |r.events| - 1).stake.candidates)) == 2 * BOND + more
    ensures Sum(Totals(At(r, |r.events|).stake.candidates)) == BOND
    ensures DueExits(At(r, |r.events| - 1).stake, At(r, |r.events|).stake.round) == {1}
  {
    hide Next, Enabled, EntersRound, RoundsKept, Clock, Sum, Totals, OneLeaves, OnlyExits, Indexed, DueExits;
    var n, m := |r.events|, |r0.events|;
    var c, before, after := At(r0, m), At(r, n - 1), At(r, n);
    assert At(r, m) == c && OnlyExits(c, before) && OnlyExits(c, after);
    AlwaysKept(r, n - 1);
    AlwaysKept(r, n);
    StepAt(r, n - 1);
    StepExits(before, r.events[n - 1]);
    assert before.stake.round == cfg.bondDuration;
    LeaverStays(r0, r, more);
    BeforeAndAfter(c, before, after, more);
    TotalsOf(more);
  }

  lemma LeaverStays(r0: Run, r: Run, more: nat)
    requires IsRun(r0) && IsRun(r) && GoesOn(r0, r) && |r0.events| < |r.events| && OneLeaves(At(r0, |r0.events|), more)
    requires At(r, |r.events| - 1).stake.round == cfg.bondDuration
    ensures 1 in At(r, |r.events| - 1).stake.candidates
  {
    hide Next, Enabled, OnlyExits;
    assert At(r, |r0.events|) == At(r0, |r0.events|);
    LeavingIsNeverUndone(r, |r0.events|, |r.events| - 1, 1, 1 + cfg.bondDuration);
  }

  lemma BeforeAndAfter(c: Chain, before: Chain, after: Chain, more: nat)
    requires OneLeaves(c, more) && OnlyExits(c, before) && OnlyExits(c, after)
    requires Indexed(before.stake) && Indexed(after.stake) && 1 in before.stake.candidates
    requires before.stake.round == cfg.bondDuration && after.stake.round == 1 + cfg.bondDuration
    ensures before.stake.candidates == LeaverAndStayer(more) && after.stake.candidates == Stayer()
    ensures DueExits(before.stake, after.stake.round) == {1}
  {
    assert 2 in c.stake.pool;
    assert 2 in before.stake.candidates && 2 in after.stake.candidates;
    assert 1 !in after.stake.candidates;
  }

  lemma TotalsOf(more: nat)
    ensures Sum(Totals(LeaverAndStayer(more))) == 2 * BOND + more && Sum(Totals(Stayer())) == BOND
  {
    SumTwo(1, BOND + more, 2, BOND);
    SumOne(2, BOND);
    hide Sum;
    assert Totals(LeaverAndStayer(more)) == map[1 := BOND + more, 2 := BOND];
    assert Totals(Stayer()) == map[2 := BOND];
  }

  // A switch merges.

  /** 1 and 2 are candidates that nobody nominates, there are no nominators, and 3 can nominate both. */
  ghost predicate CanNominateBoth(s: State) {
    && s.nominators == map[] && 3 !in s.candidates && 1 in s.candidates && 2 in s.candidates
    && s.candidates[1].nominators == map[] && s.candidates[2].nominators == map[]
    && CanReserve(s.ledger, 3, NOMINATION + NOMINATION)
  }

  lemma OpeningAllowsBoth(c: Chain)
    requires TwoStaked(c, 4, NOMINATION + NOMINATION + BOND)
    ensures CanNominateBoth(c.stake)
  {
    EnoughFor(c.stake.ledger, 3, NOMINATION + NOMINATION, BOND);
  }

  lemma NominatesBoth(s: State)
    requires 1 <= cfg.maxNominatorsPerValidator && 2 <= cfg.maxValidatorsPerNominator && CanNominateBoth(s)
    ensures var s1 := Dispatch(s, 3, CallJoinNominators(1, NOMINATION)).state;
      var s2 := Dispatch(s1, 3, CallNominateNew(2, NOMINATION)).state;
      && s2.candidates.Keys == s.candidates.Keys && 3 in s2.nominators
      && s2.nominators[3].nominations == map[1 := NOMINATION, 2 := NOMINATION]
  {
    hide JoinNominators, NominateNew, CanReserve, Reserve;
    StillFree(s.ledger, 3, NOMINATION, NOMINATION);
    NominatorJoins(s, 3, 1, NOMINATION);
    NominatesMore(JoinNominators(s, 3, 1, NOMINATION).state, 3, 2, NOMINATION);
  }

  lemma NominatesMore(s: State, acc: AccountId, v: AccountId, amount: nat)
    requires cfg.minNomination <= amount && CanReserve(s.ledger, acc, amount)
    requires acc in s.nominators && |s.nominators[acc].nominations| < cfg.maxValidatorsPerNominator
    requires v in s.candidates && v !in s.nominators[acc].nominations && acc !in s.candidates[v].nominators
    requires |s.candidates[v].nominators| < cfg.maxNominatorsPerValidator
    ensures var s', x := NominateNew(s, acc, v, amount).state, s.nominators[acc];
      && s'.nominators == s.nominators[acc := Nominator(x.nominations[v := amount], x.total + amount)]
      && s'.candidates.Keys == s.candidates.Keys
  {
    hide CanReserve, Reserve;
  }

  /** From an open block in which 3 can nominate both, 3 does, and nothing else happens. */
  lemma BothNominated(r: Run) returns (r': Run)
    requires 1 <= cfg.maxNominatorsPerValidator && 2 <= cfg.maxValidatorsPerNominator
    requires IsRun(r) && CleanUntil(r, |r.events|) && At(r, |r.events|).open && CanNominateBoth(At(r, |r.events|).stake)
    ensures IsRun(r') && CleanUntil(r', |r'.events|) && At(r', |r'.events|).open
    ensures Solvent(At(r', |r'.events|).stake) && OthersKeepTheirs(At(r, |r.events|).stake.ledger, At(r', |r'.events|).stake.ledger)
    ensures var s, s' := At(r, |r.events|).stake, At(r', |r'.events|).stake;
      && s'.candidates.Keys == s.candidates.Keys && 3 in s'.nominators
      && s'.nominators[3].nominations == map[1 := NOMINATION, 2 := NOMINATION]
  {
    hide Next, Enabled, Adjustment, CanNominateBoth, Solvent, SnapshotsSound, OthersKeepTheirs;
    var s := At(r, |r.events|).stake;
    NominatesBoth(s);
    OnlySwitchesMayBeUnclean(s, 3, CallJoinNominators(1, NOMINATION));
    hide Dispatch, CleanCall;
    var r1 := Say(r, 3, CallJoinNominators(1, NOMINATION));
    var s1 := At(r1, |r1.events|).stake;
    OnlySwitchesMayBeUnclean(s1, 3, CallNominateNew(2, NOMINATION));
    r' := Say(r1, 3, CallNominateNew(2, NOMINATION));
    AlwaysClean(r, |r.events|);
    AlwaysClean(r1, |r1.events|);
    AlwaysClean(r', |r'.events|);
    TwoCallsSpare(s, 3, CallJoinNominators(1, NOMINATION), CallNominateNew(2, NOMINATION));
  }

  lemma TwoCallsSpare(s: State, who: AccountId, first: Call, second: Call)
    requires Solvent(s) && Solvent(Dispatch(Dispatch(s, who, first).state, who, second).state)
    ensures OthersKeepTheirs(s.ledger, Dispatch(Dispatch(s, who, first).state, who, second).state.ledger)
  {
    hide Dispatch, Solvent, OthersKeepTheirs, Held, Reserved, Free;
    var s1 := Dispatch(s, who, first).state;
    DispatchConserves(s, who, first);
    DispatchConserves(s1, who, second);
    SolventSpares(s, Dispatch(s1, who, second).state);
  }

  /** The switch that merges can be reached: the run is clean up to it, and its books are broken by it. */
  lemma MergeHappens() returns (r: Run)
    requires 1 <= cfg.maxNominatorsPerValidator && 2 <= cfg.maxValidatorsPerNominator
    ensures IsRun(r) && |r.events| > 0 && CleanUntil(r, |r.events| - 1)
    ensures r.events[|r.events| - 1] == Transact(3, CallSwitchNomination(1, 2))
    ensures Solvent(At(r, |r.events| - 1).stake) && !Solvent(At(r, |r.events|).stake)
  {
    hide Next, Enabled, Adjustment, TwoStaked, CanNominateBoth, Solvent, OthersKeepTheirs, Dispatch, CleanCall;
    var r0 := Opening(4, NOMINATION + NOMINATION + BOND);
    OpeningAllowsBoth(At(r0, |r0.events|));
    var r1 := BothNominated(r0);
    assert Nominates(At(r1, |r1.events|).stake.nominators, 3, 1) && Nominates(At(r1, |r1.events|).stake.nominators, 3, 2);
    hide Nominates;
    r := Say(r1, 3, CallSwitchNomination(1, 2));
    MergeDispatched(At(r1, |r1.events|).stake);
  }

  /** A failing call that changes state: after the switch from 2 into 1 the nominator asks to leave,
      departs from 1, and fails at 2. */
  lemma FailedLeaveChangesState() returns (r: Run)
    requires 1 <= cfg.maxNominatorsPerValidator && 2 <= cfg.maxValidatorsPerNominator
    ensures IsRun(r) && |r.events| > 0
    ensures r.events[|r.events| - 1] == Transact(3, CallLeaveNominators)
    ensures Dispatch(At(r, |r.events| - 1).stake, 3, CallLeaveNominators).result == Err(NominatorDNE)
    ensures At(r, |r.events|).stake != At(r, |r.events| - 1).stake
  {
    hide Next, Enabled, Adjustment, TwoStaked, CanNominateBoth, Solvent, OthersKeepTheirs, CleanCall;
    var r0 := Opening(4, NOMINATION + NOMINATION + BOND);
    OpeningAllowsBoth(At(r0, |r0.events|));
    var r1 := BothNominated(r0);
    PartialLeave(At(r1, |r1.events|).stake);
    hide Dispatch;
    var r2 := Say(r1, 3, CallSwitchNomination(2, 1));
    r := Say(r2, 3, CallLeaveNominators);
  }

  lemma PartialLeave(s: State)
    requires Solvent(s) && 3 in s.nominators && s.nominators[3].nominations == map[1 := NOMINATION, 2 := NOMINATION]
    ensures var s1 := Dispatch(s, 3, CallSwitchNomination(2, 1)).state;
      var left := Dispatch(s1, 3, CallLeaveNominators);
      left.result == Err(NominatorDNE) && left.state != s1
  {
    BothAndNotFour(s);
    assert 1 in s.nominators[3].nominations.Keys;
    hide Dispatch, Solvent, SwitchNomination, LeaveNominators, Nominates;
    DispatchSwitch(s, 3, 2, 1);
    DispatchLeave(SwitchNomination(s, 3, 2, 1).state, 3);
    EveryMergeBreaks(s, 3, 2, 1);
    LeavingStale(s, 3, 2, 1);
  }

  lemma DispatchSwitch(s: State, who: AccountId, from: AccountId, to: AccountId)
    ensures Dispatch(s, who, CallSwitchNomination(from, to)) == SwitchNomination(s, who, from, to)
  {
    hide SwitchNomination;
  }

  lemma DispatchLeave(s: State, who: AccountId)
    ensures Dispatch(s, who, CallLeaveNominators) == LeaveNominators(s, who)
  {
    hide LeaveNominators;
  }

  lemma LeavingStale(s: State, acc: AccountId, from: AccountId, to: AccountId)
    requires Solvent(s) && Merges(s, acc, to) && SwitchNomination(s, acc, from, to).result.Ok?
    requires to in s.nominators[acc].nominations.Keys && to < from
    ensures var s1 := SwitchNomination(s, acc, from, to).state;
      LeaveNominators(s1, acc).result == Err(NominatorDNE) && LeaveNominators(s1, acc).state != s1
  {
    hide Solvent, SwitchNomination, LeaveNominators;
    LeavingAfterMerge(s, acc, from, to);
  }

  lemma MergeDispatched(s: State)
    requires Solvent(s) && Nominates(s.nominators, 3, 1) && Nominates(s.nominators, 3, 2)
    ensures !Solvent(Dispatch(s, 3, CallSwitchNomination(1, 2)).state)
  {
    hide Solvent, SwitchNomination, Nominates;
    EveryMergeBreaks(s, 3, 1, 2);
  }

  // A candidate goes over its cap.

  predicate Waiting(a: AccountId, i: nat, m: nat) {
    a == 3 || 4 + i <= a < 4 + m
  }

  /** Nominators 4 to 3 + i have joined candidate 1, and those up to 3 + m, and 3, still can. */
  ghost predicate Crowd(c: Chain, i: nat, m: nat) {
    && c.open && c.stake.candidates.Keys == {1, 2} && c.stake.candidates[2].nominators == map[]
    && |c.stake.candidates[1].nominators| == i
    && (forall a :: a in c.stake.candidates[1].nominators ==> 4 <= a < 4 + i)
    && (forall a :: a in c.stake.nominators ==> 4 <= a < 4 + i)
    && (forall a :: Waiting(a, i, m) ==> CanReserve(c.stake.ledger, a, NOMINATION))
  }

  lemma CrowdStarts(c: Chain, m: nat)
    requires TwoStaked(c, 4 + m, NOMINATION + BOND)
    ensures Crowd(c, 0, m)
  {
    hide CanReserve;
    forall a | Waiting(a, 0, m) ensures CanReserve(c.stake.ledger, a, NOMINATION) {
      EnoughFor(c.stake.ledger, a, NOMINATION, BOND);
    }
  }

  lemma OthersStillFree(l: Ledger, a: AccountId, v: nat, b: AccountId, w: nat)
    requires a != b && CanReserve(l, a, v) && CanReserve(l, b, w)
    ensures CanReserve(Reserve(l, a, v), b, w)
  {
  }

  lemma CrowdGrows(c: Chain, i: nat, m: nat)
    requires Crowd(c, i, m) && i < m && i < cfg.maxNominatorsPerValidator
    ensures Crowd(c.(stake := Dispatch(c.stake, 4 + i, CallJoinNominators(1, NOMINATION)).state), i + 1, m)
  {
    hide JoinNominators, CanReserve, Reserve;
    assert Waiting(4 + i, i, m);
    NominatorJoins(c.stake, 4 + i, 1, NOMINATION);
    var j: nat, l := i + 1, Reserve(c.stake.ledger, 4 + i, NOMINATION);
    forall a | Waiting(a, j, m) ensures CanReserve(l, a, NOMINATION) {
      assert Waiting(a, i, m);
      OthersStillFree(c.stake.ledger, 4 + i, NOMINATION, a, NOMINATION);
    }
  }

  lemma {:induction false} CrowdJoins(i: nat, m: nat) returns (r: Run)
    requires i <= m <= cfg.maxNominatorsPerValidator
    ensures IsRun(r) && CleanUntil(r, |r.events|) && Crowd(At(r, |r.events|), i, m)
    decreases i
  {
    hide Next, Enabled, Adjustment, TwoStaked, Crowd;
    if i == 0 {
      r := Opening(4 + m, NOMINATION + BOND);
      CrowdStarts(At(r, |r.events|), m);
    } else {
      var before := CrowdJoins(i - 1, m);
      var c := At(before, |before.events|);
      CrowdGrows(c, i - 1, m);
      assert c.open by { CrowdOpen(c, i - 1, m); }
      hide Dispatch;
      r := Say(before, 4 + (i - 1), CallJoinNominators(1, NOMINATION));
    }
  }

  lemma CrowdOpen(c: Chain, i: nat, m: nat)
    requires Crowd(c, i, m)
    ensures c.open
  {
  }

  /** Once candidate 1 is full, nominator 3 joins 2 instead. */
  lemma LateNominator(c: Chain, m: nat)
    requires Crowd(c, m, m) && m == cfg.maxNominatorsPerValidator && 1 <= m
    ensures var s := Dispatch(c.stake, 3, CallJoinNominators(2, NOMINATION)).state;
      && 1 in s.candidates && |s.candidates[1].nominators| == m
      && Nominates(s.nominators, 3, 2) && !Nominates(s.nominators, 3, 1)
  {
    hide JoinNominators, CanReserve, Reserve;
    assert Waiting(3, m, m);
    NominatorJoins(c.stake, 3, 2, NOMINATION);
  }

  lemma OverfullDispatched(s: State, m: nat)
    requires Solvent(s) && 1 in s.candidates && |s.candidates[1].nominators| == m == cfg.maxNominatorsPerValidator
    requires Nominates(s.nominators, 3, 2) && !Nominates(s.nominators, 3, 1)
    ensures !WithinCap(Dispatch(s, 3, CallSwitchNomination(2, 1)).state.candidates)
    ensures CleanCall(s, 3, CallSwitchNomination(2, 1))
  {
    hide Solvent, SwitchNomination, Nominates, WithinCap;
    FullCandidateAccepts(s, 3, 2, 1);
  }

  /** For every cap that lets a nominator in at all, a clean run takes a candidate over it: as many
      nominators as fit join candidate 1, one more joins 2 and switches to 1. */
  lemma CapIsExceeded() returns (r: Run)
    requires 1 <= cfg.maxNominatorsPerValidator
    ensures IsRun(r) && CleanUntil(r, |r.events|) && |r.events| > 0
    ensures r.events[|r.events| - 1] == Transact(3, CallSwitchNomination(2, 1))
    ensures !WithinCap(At(r, |r.events|).stake.candidates)
  {
    hide Next, Enabled, Adjustment, Solvent, SnapshotsSound, Nominates, WithinCap, Crowd;
    var m := cfg.maxNominatorsPerValidator;
    var r0 := CrowdJoins(m, m);
    CrowdOpen(At(r0, |r0.events|), m, m);
    LateNominator(At(r0, |r0.events|), m);
    hide Dispatch, CleanCall;
    OnlySwitchesMayBeUnclean(At(r0, |r0.events|).stake, 3, CallJoinNominators(2, NOMINATION));
    var r1 := Say(r0, 3, CallJoinNominators(2, NOMINATION));
    AlwaysClean(r1, |r1.events|);
    OverfullDispatched(At(r1, |r1.events|).stake, m);
    r := Say(r1, 3, CallSwitchNomination(2, 1));
  }

  // Stake from nothing, and the reserve of others.

  /** Another pallet reserves `x` of what 3 has. */
  ghost function ReservedBy(l: Ledger, x: nat): Ledger
    requires 3 in l.accounts && x <= l.accounts[3].free
  {
    l.(accounts := l.accounts[3 := Account(l.accounts[3].free - x, l.accounts[3].reserved + x)])
  }

  lemma HoldsNothing(s: State, a: AccountId)
    requires Solvent(s) && a !in s.candidates && a !in s.nominators
    ensures Held(s.ledger, a) == 0
  {
    hide Sound, Sum, Totals, Held;
  }

  lemma OthersReserve(l: Ledger, f: nat, x: nat)
    requires CanReserve(l, 3, f + x) && CanReserve(l, 4, f + x) && 0 < x && Held(l, 3) == 0
    ensures 3 in l.accounts && x <= l.accounts[3].free
    ensures OthersActed(l, ReservedBy(l, x)) && x <= Elsewhere(ReservedBy(l, x), 3)
    ensures CanReserve(ReservedBy(l, x), 3, f) && CanReserve(ReservedBy(l, x), 4, f)
  {
  }

  lemma ThirdCandidate(s: State)
    requires s.candidates == TwoCandidates() && s.nominators == map[] && s.pool == map[1 := BOND, 2 := BOND]
    requires CanReserve(s.ledger, 4, BOND) && CanReserve(s.ledger, 3, NOMINATION + NOMINATION)
    ensures var s' := Dispatch(s, 4, CallJoinCandidates(0, BOND)).state;
      && CanNominateBoth(s') && s'.candidates.Keys == {1, 2, 4} && s'.ledger == Reserve(s.ledger, 4, BOND)
  {
    hide CanReserve, Reserve, JoinCandidates;
    CandidateJoins(s, 4, BOND);
    OthersStillFree(s.ledger, 4, BOND, 3, NOMINATION + NOMINATION);
  }

  /** The opening in which another pallet has reserved as much of 3 as one nomination. */
  ghost predicate ReservedOpening(s: State) {
    && s.candidates == TwoCandidates() && s.nominators == map[] && s.pool == map[1 := BOND, 2 := BOND]
    && CanReserve(s.ledger, 4, BOND) && CanReserve(s.ledger, 3, NOMINATION + NOMINATION)
    && NOMINATION <= Elsewhere(s.ledger, 3)
  }

  lemma OpeningReserved(c: Chain) returns (l: Ledger)
    requires TwoStaked(c, 5, NOMINATION + NOMINATION + BOND + NOMINATION) && Solvent(c.stake)
    ensures OthersActed(c.stake.ledger, l) && ReservedOpening(c.stake.(ledger := l))
  {
    var f := NOMINATION + NOMINATION + BOND;
    assert 3 !in c.stake.candidates;
    HoldsNothing(c.stake, 3);
    hide Solvent, CanReserve, OthersActed, Elsewhere, Held, ReservedBy;
    OthersReserve(c.stake.ledger, f, NOMINATION);
    l := ReservedBy(c.stake.ledger, NOMINATION);
    EnoughFor(l, 4, BOND, NOMINATION + NOMINATION);
    EnoughFor(l, 3, NOMINATION + NOMINATION, BOND);
  }

  lemma OpenReserved() returns (r: Run)
    ensures IsRun(r) && CleanUntil(r, |r.events|) && At(r, |r.events|).open && ReservedOpening(At(r, |r.events|).stake)
  {
    hide Next, Adjustment, Solvent, SnapshotsSound, TwoStaked, ReservedOpening, OthersActed;
    var r0 := Opening(5, NOMINATION + NOMINATION + BOND + NOMINATION);
    AlwaysClean(r0, |r0.events|);
    var c := At(r0, |r0.events|);
    var l := OpeningReserved(c);
    r := Take(r0, Others(l));
    OthersNext(c, l);
  }

  lemma OthersNext(c: Chain, l: Ledger)
    requires OthersActed(c.stake.ledger, l)
    ensures Next(c, Others(l)) == c.(stake := c.stake.(ledger := l))
  {
    hide OthersActed;
  }

  /** 1, 2 and 4 are candidates, 3 nominates 1 and 2, and another pallet has reserved as much of 3 as
      one nomination. */
  lemma ThreeCandidates() returns (r: Run)
    requires 1 <= cfg.maxNominatorsPerValidator && 2 <= cfg.maxValidatorsPerNominator
    ensures IsRun(r) && CleanUntil(r, |r.events|) && At(r, |r.events|).open
    ensures var s := At(r, |r.events|).stake;
      && Solvent(s) && 4 in s.candidates && NOMINATION <= Elsewhere(s.ledger, 3)
      && 3 in s.nominators && s.nominators[3].nominations == map[1 := NOMINATION, 2 := NOMINATION]
  {
    hide Next, Enabled, Adjustment, Solvent, SnapshotsSound, OthersKeepTheirs, CanNominateBoth, ReservedOpening, Elsewhere;
    var r1 := OpenReserved();
    var s1 := At(r1, |r1.events|).stake;
    ThirdJoins(s1);
    OnlySwitchesMayBeUnclean(s1, 4, CallJoinCandidates(0, BOND));
    hide Dispatch, CleanCall;
    var r2 := Say(r1, 4, CallJoinCandidates(0, BOND));
    AlwaysClean(r1, |r1.events|);
    AlwaysClean(r2, |r2.events|);
    OneCallSpares(s1, 4, CallJoinCandidates(0, BOND));
    r := BothNominated(r2);
    SparedTwice(s1.ledger, At(r2, |r2.events|).stake.ledger, At(r, |r.events|).stake.ledger);
  }

  lemma ThirdJoins(s: State)
    requires ReservedOpening(s)
    ensures CanNominateBoth(Dispatch(s, 4, CallJoinCandidates(0, BOND)).state)
    ensures 4 in Dispatch(s, 4, CallJoinCandidates(0, BOND)).state.candidates.Keys
    ensures NOMINATION <= Elsewhere(s.ledger, 3)
  {
    hide Elsewhere, CanNominateBoth, Dispatch, CanReserve, Reserve;
    ThirdCandidate(s);
  }

  lemma OneCallSpares(s: State, who: AccountId, call: Call)
    requires Solvent(s) && Solvent(Dispatch(s, who, call).state)
    ensures OthersKeepTheirs(s.ledger, Dispatch(s, who, call).state.ledger)
  {
    hide Dispatch, Solvent, OthersKeepTheirs, Held, Reserved, Free;
    DispatchConserves(s, who, call);
    SolventSpares(s, Dispatch(s, who, call).state);
  }

  lemma SparedTwice(l0: Ledger, l1: Ledger, l2: Ledger)
    requires OthersKeepTheirs(l0, l1) && OthersKeepTheirs(l1, l2)
    ensures forall a :: Elsewhere(l2, a) == Elsewhere(l0, a)
  {
    hide Elsewhere, Held, Reserved;
  }

  /** 3 switches its bond with 1 into 2, and then the bond that stays behind on to 4. */
  lemma SwitchesTwoTimes(r0: Run) returns (r: Run)
    requires IsRun(r0) && At(r0, |r0.events|).open
    ensures r == Run(r0.genesis, r0.events + [Transact(3, CallSwitchNomination(1, 2)), Transact(3, CallSwitchNomination(1, 4))])
    ensures IsRun(r) && At(r, |r.events|).open && At(r, |r.events|).stake == SwitchedTwice(At(r0, |r0.events|).stake, 3, 1, 2, 4)
    ensures CleanUntil(r0, |r0.events|) ==> CleanUntil(r, |r0.events|)
  {
    hide Next, Enabled, Adjustment, CleanCall, SwitchNomination, Clean;
    var e1, e2 := Transact(3, CallSwitchNomination(1, 2)), Transact(3, CallSwitchNomination(1, 4));
    var r1 := Say(r0, 3, CallSwitchNomination(1, 2));
    r := Say(r1, 3, CallSwitchNomination(1, 4));
    assert r0.events + [e1] + [e2] == r0.events + [e1, e2];
    if CleanUntil(r0, |r0.events|) {
      StillClean(r1, r, e2, |r0.events|);
    }
  }

  lemma StillClean(r: Run, r': Run, e: Event, i: nat)
    requires IsRun(r) && IsRun(r') && r' == Run(r.genesis, r.events + [e]) && i <= |r.events| && CleanUntil(r, i)
    ensures CleanUntil(r', i)
  {
    hide Next, Enabled, Clean;
    forall k | 0 <= k < i ensures At(r', k) == At(r, k) && r'.events[k] == r.events[k] {
      SamePrefix(r, e, k);
    }
  }

  lemma BothAndNotFour(s: State)
    requires 3 in s.nominators && s.nominators[3].nominations == map[1 := NOMINATION, 2 := NOMINATION]
    ensures Nominates(s.nominators, 3, 1) && Nominates(s.nominators, 3, 2) && !Nominates(s.nominators, 3, 4)
  {
  }

  /** A run in which stake comes from nothing: 3 switches its bond with 1 into 2, and then the bond that
      stays behind on to 4. All totals together then exceed all that is reserved by one nomination. */
  lemma StakeFromNothingHappens() returns (r: Run)
    requires 1 <= cfg.maxNominatorsPerValidator && 2 <= cfg.maxValidatorsPerNominator
    ensures IsRun(r) && |r.events| > 1 && CleanUntil(r, |r.events| - 2)
    ensures r.events[|r.events| - 2..] == [Transact(3, CallSwitchNomination(1, 2)), Transact(3, CallSwitchNomination(1, 4))]
    ensures var s := At(r, |r.events|).stake; Sum(Totals(s.candidates)) == Sum(s.ledger.held) + NOMINATION
    ensures 0 < NOMINATION
  {
    hide Next, Enabled, Solvent, Elsewhere, Clean, Sum, Totals, SwitchNomination, Nominates;
    var r0 := ThreeCandidates();
    var s := At(r0, |r0.events|).stake;
    BothAndNotFour(s);
    StakeFromNothing(s, 3, 1, 2, 4);
    r := SwitchesTwoTimes(r0);
  }

  /** And in which a call takes what another pallet has reserved: 3 then leaves, is given back one
      nomination more than this pallet held, and the other pallet is left with so much less. */
  lemma ReserveOfOthersIsTaken() returns (r: Run)
    requires 1 <= cfg.maxNominatorsPerValidator && 2 <= cfg.maxValidatorsPerNominator
    ensures IsRun(r) && |r.events| > 0 && r.events[|r.events| - 1] == Transact(3, CallLeaveNominators)
    ensures Dispatch(At(r, |r.events| - 1).stake, 3, CallLeaveNominators).result.Ok?
    ensures var l, l' := At(r, |r.events| - 1).stake.ledger, At(r, |r.events|).stake.ledger;
      Elsewhere(l', 3) == Elsewhere(l, 3) - NOMINATION && Held(l', 3) == 0 - NOMINATION && 0 < NOMINATION
  {
    hide Next, Enabled, Adjustment, Solvent, Elsewhere, Clean, Sum, Totals, SwitchedTwice, LeaveNominators, Held, Nominates;
    var r0 := ThreeCandidates();
    var s := At(r0, |r0.events|).stake;
    BothAndNotFour(s);
    LeavingTakesFromOthers(s, 3, 1, 2, 4);
    DispatchLeave(SwitchedTwice(s, 3, 1, 2, 4), 3);
    hide Dispatch;
    var r1 := SwitchesTwoTimes(r0);
    r := Say(r1, 3, CallLeaveNominators);
  }

  // Everybody goes offline.

  /** The last block of the first round is open, and nothing else has happened since the opening. */
  lemma LastBlock() returns (r: Run)
    requires cfg.maxValidators != 0
    ensures IsRun(r) && CleanUntil(r, |r.events|)
    ensures var c := At(r, |r.events|);
      && c.open && c.author == None && c.ratio == 50 && c.block == cfg.blocksPerRound && c.stake.validators != []
      && c.stake.candidates == TwoCandidates() && c.stake.pool == map[1 := BOND, 2 := BOND]
  {
    hide OnlyExits, Indexed, RoundsKept, GoesOn, Next, Enabled, Balances, TwoCandidates, Clean;
    var r0 := Opening(3, BOND);
    if cfg.blocksPerRound == 1 {
      r := r0;
    } else {
      GoesOnItself(r0);
      var r1 := FinishBlock(r0, r0);
      BlockDone(r0, r1);
      OneOfMany(cfg.blocksPerRound);
      assert 1 in At(r1, |r1.events|).stake.pool;
      var r2 := AnyNumberOfBlocks(r0, r1, cfg.blocksPerRound - 2);
      BlockDone(r0, r2);
      NextInitialize(At(r2, |r2.events|));
      r := GoOn(r0, r2, Initialize);
      BlockDone(r0, r);
      GoesOnClean(r0, r, |r.events|);
      AlwaysKept(r, |r.events|);
      BothRemain(r0, r);
    }
  }

  lemma OneOfMany(n: nat)
    requires 2 <= n
    ensures 1 % n == 1
  {
  }

  lemma NextInitialize(c: Chain)
    requires !c.open
    ensures Enabled(c, Initialize) && Next(c, Initialize) == c.(block := c.block + 1, author := None, open := true)
  {
  }

  /** Those in the pool are still candidates. */
  lemma BothRemain(r0: Run, r: Run)
    requires IsRun(r0) && IsRun(r) && GoesOn(r0, r) && Indexed(At(r, |r.events|).stake)
    requires At(r0, |r0.events|).stake.candidates == TwoCandidates() && At(r0, |r0.events|).stake.pool == map[1 := BOND, 2 := BOND]
    ensures At(r, |r.events|).stake.candidates == TwoCandidates()
  {
    hide Next, Enabled, ExitsIndexed, Block;
    var c, c' := At(r0, |r0.events|), At(r, |r.events|);
    assert OnlyExits(c, c');
    assert 1 in c'.stake.pool && 2 in c'.stake.pool;
  }

  lemma BothGoOffline(s: State)
    requires s.candidates == TwoCandidates() && s.pool == map[1 := BOND, 2 := BOND]
    ensures var s2 := Dispatch(Dispatch(s, 1, CallGoOffline).state, 2, CallGoOffline).state;
      s2.pool == map[] && s2.validators == s.validators
  {
  }

  /** The chain can be stopped for good by calls that everybody may make: all candidates go offline,
      and the next transition leaves no validators. By `EmptySetStopsTheChain` nothing follows. */
  lemma EverybodyGoesOffline() returns (r: Run)
    requires cfg.maxValidators != 0
    ensures IsRun(r) && CleanUntil(r, |r.events|) && |r.events| > 0
    ensures EntersRound(At(r, |r.events| - 1), r.events[|r.events| - 1])
    ensures At(r, |r.events| - 1).stake.validators != [] && At(r, |r.events|).stake.validators == []
  {
    hide OnlyExits, GoesOn, Next, Enabled, TwoCandidates, CleanCall, Adjustment;
    var r0 := LastBlock();
    var s := At(r0, |r0.events|).stake;
    BothGoOffline(s);
    OnlySwitchesMayBeUnclean(s, 1, CallGoOffline);
    hide Dispatch;
    var r1 := Say(r0, 1, CallGoOffline);
    OnlySwitchesMayBeUnclean(At(r1, |r1.events|).stake, 2, CallGoOffline);
    var r2 := Say(r1, 2, CallGoOffline);
    GoesOnItself(r2);
    r := FinishBlock(r2, r2);
    LastStep(r2, r);
    GoesOnClean(r2, r, |r.events|);
  }

  lemma LastStep(r2: Run, r: Run)
    requires IsRun(r2) && IsRun(r) && GoesOn(r2, r) && |r.events| == |r2.events| + 2
    requires r.events[|r.events| - 2].SetAuthor? && r.events[|r.events| - 1].Finalize? && At(r, |r.events| - 1).block == cfg.blocksPerRound
    requires At(r2, |r2.events|).stake.pool == map[] && At(r2, |r2.events|).stake.validators != []
    ensures EntersRound(At(r, |r.events| - 1), r.events[|r.events| - 1])
    ensures At(r, |r.events|).stake.validators == []
    ensures At(r, |r.events| - 1).stake.validators != []
  {
    hide Next, Enabled, Block;
    var n := |r.events|;
    assert OnlyExits(At(r2, n - 2), At(r, n - 1));
    NextSetEmptyExactly(r, n - 1);
    AlwaysKept(r, n - 2);
    StepAt(r, n - 2);
    hide Kept;
    StepKeepsValidators(At(r, n - 2), r.events[n - 2]);
  }
}
