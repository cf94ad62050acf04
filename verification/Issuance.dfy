/** What rounds distribute, on whole runs: nothing but the two governance calls touches the inflation
    settings, and they keep the round rates in order. */
module Issuance {
  import opened Primitives
  import opened PerThing
  import opened Sums
  import opened Inflation
  import opened StakeSpec
  import opened Books
  import opened Indexes
  import opened Chain
  import opened Calls
  import opened EveryRun
  import opened ExitSchedule

  lemma DispatchKeepsSchedule(s: State, who: AccountId, call: Call)
    requires IsValidRate(s.inflation.round)
    ensures IsValidRate(Dispatch(s, who, call).state.inflation.round)
  {
    if Governance(call) {
      hide IsValidRate, IsValidExpectation, AnnualToRound;
      if call.CallSetInflation? && IsValidRate(call.schedule) {
        AnnualToRoundKeepsOrder(call.schedule);
      }
    } else {
      hide IsValidRate, Dispatch, Indexed, LeavingStays;
      DispatchTame(s, who, call);
    }
  }

  lemma StepKeepsSchedule(c: Chain, e: Event)
    requires Enabled(c, e) && IsValidRate(c.stake.inflation.round)
    ensures IsValidRate(Next(c, e).stake.inflation.round)
  {
    hide Dispatch, BeforeSelection, BestChoice, IsValidRate, AuthorAccepted, DueExits, Sum, Totals;
    if e.Transact? {
      DispatchKeepsSchedule(c.stake, e.who, e.call);
    } else if EntersRound(c, e) {
      BeforeSelectionFrame(c.stake);
    }
  }

  lemma {:induction false} ScheduleStaysOrdered(r: Run, i: nat)
    requires IsRun(r) && i <= |r.events| && IsValidRate(r.genesis.inflation.round)
    ensures IsValidRate(At(r, i).stake.inflation.round)
    decreases i
  {
    hide Enabled, Next, Start, GenesisAccepted, IsValidRate;
    PrefixIsRun(r, i);
    if i == 0 {
      StartSchedule(r.genesis);
    } else {
      ScheduleStaysOrdered(r, i - 1);
      StepAt(r, i - 1);
      StepKeepsSchedule(At(r, i - 1), r.events[i - 1]);
    }
  }

  /** On every run from an ordered genesis schedule, what a transition distributes lies between the
      shares of the supply at the lowest and the highest round rate, whatever the stake of the round
      and however often the schedule and the expectations have been set since. */
  lemma IssuanceInRange(r: Run, i: nat, staked: int, issuance: int)
    requires IsRun(r) && i <= |r.events| && IsValidRate(r.genesis.inflation.round)
    requires IsIssuance(At(r, i).stake.inflation, At(r, i).stake.ledger.issuance, staked, issuance)
    ensures var s := At(r, i).stake;
      && IsValidRate(s.inflation.round)
      && Mul(s.inflation.round.min, s.ledger.issuance) <= issuance <= Mul(s.inflation.round.max, s.ledger.issuance)
  {
    hide IsValidRate, Mul, ComputeIssuance, IsIssuance;
    ScheduleStaysOrdered(r, i);
    var s := At(r, i).stake;
    IssuanceByStake(s.inflation, s.ledger.issuance, staked, issuance);
    IssuanceMonotone(s.inflation, s.ledger.issuance, s.ledger.issuance, staked, staked);
  }

  lemma StartSchedule(g: Genesis)
    requires GenesisAccepted(g)
    ensures Start(g).stake.inflation == g.inflation
  {
    hide JoinAll, BestChoice;
    hide Indexed, LeavingStays;
    JoinAllKeeps(Empty(g), g.stakers);
  }
}
