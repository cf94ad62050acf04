/** What every accepted call does, on solvent books: to the table of stakes, and to the fees and the
    statuses. Nothing else is left open, since these determine the rest. */
module CallEffects {
  import opened Primitives
  import opened Sums
  import opened Ascending
  import opened Currency
  import opened StakeSpec
  import opened Books
  import opened Solvency
  import opened Switching
  import opened Departures
  import opened Inflation
  import opened Calls
  import opened StakeTable

  /** What `n` has at stake with `v` after a call of `who`: only the caller's stakes ever change. */
  ghost function StakeAfter(c: Candidates, who: AccountId, call: Call, v: AccountId, n: AccountId): int {
    var had := StakeOf(c, v, n);
    if n != who then had
    else match call
      case CallJoinCandidates(_, bond) => if v == who then bond else had
      case CallCandidateBondMore(more) => if v == who then had + more else had
      case CallCandidateBondLess(less) => if v == who then had - less else had
      case CallJoinNominators(to, amount) => if v == to then amount else had
      case CallNominateNew(to, amount) => if v == to then amount else had
      case CallNominatorBondMore(to, more) => if v == to then had + more else had
      case CallNominatorBondLess(to, less) => if v == to then had - less else had
      case CallRevokeNomination(from) => if v == from then 0 else had
      case CallSwitchNomination(from, to) => if v == from then 0 else if v == to then StakeOf(c, from, who) else had
      case CallLeaveNominators => 0
      case _ => had
  }

  /** Candidate `v`'s status after a call of `who` in round `round`, if it was `status`. */
  function StatusAfter(status: Status, round: nat, v: AccountId, who: AccountId, call: Call): Status {
    if v != who then status
    else match call
      case CallLeaveCandidates => Leaving(round + cfg.bondDuration)
      case CallGoOffline => Idle
      case CallGoOnline => Active
      case _ => status
  }

  /** From `c` to `c'`, in round `round`, call `call` of `who` has been executed. */
  ghost predicate CallDoes(c: Candidates, c': Candidates, round: nat, who: AccountId, call: Call) {
    && c'.Keys == c.Keys + (if call.CallJoinCandidates? then {who} else {})
    && (forall v :: v in c ==> v in c' && c'[v].fee == c[v].fee && c'[v].status == StatusAfter(c[v].status, round, v, who, call))
    && (call.CallJoinCandidates? ==> who in c' && who !in c && c'[who].fee == call.fee && c'[who].status == Active)
    && (forall v, n :: StakeOf(c', v, n) == StakeAfter(c, who, call, v, n))
  }

  /** If outcome `o` of call `call` of `who` from `s` is an acceptance, the call has been executed. */
  ghost predicate AcceptedDoes(s: State, o: Outcome, who: AccountId, call: Call) {
    o.result.Ok? ==> CallDoes(s.candidates, o.state.candidates, s.round, who, call)
  }

  // One entry of the table.

  /** Only what `n` has at stake with `v` differs: it is now `x`. */
  ghost predicate OneStake(c: Candidates, c': Candidates, v: AccountId, n: AccountId, x: int) {
    && c'.Keys == c.Keys
    && (forall w :: w in c && w in c' ==> c'[w].fee == c[w].fee && c'[w].status == c[w].status)
    && (forall w, m :: StakeOf(c', w, m) == if w == v && m == n then x else StakeOf(c, w, m))
  }

  lemma SetBackingOneStake(c: Candidates, v: AccountId, n: AccountId, x: nat)
    requires v in c && n != v
    ensures OneStake(c, SetBacking(c, v, n, x), v, n, x)
  {
  }

  lemma OwnBondOneStake(c: Candidates, v: AccountId, x: Candidate)
    requires v in c && x.fee == c[v].fee && x.status == c[v].status && x.nominators == c[v].nominators
    ensures OneStake(c, c[v := x], v, v, x.bond)
  {
  }

  /** A call whose table differs in one entry. */
  lemma OneStakeDoes(c: Candidates, c': Candidates, round: nat, who: AccountId, call: Call, v: AccountId, x: int)
    requires OneStake(c, c', v, who, x)
    requires !call.CallJoinCandidates? && !call.CallLeaveCandidates? && !call.CallGoOffline? && !call.CallGoOnline?
    requires !call.CallLeaveNominators? && !call.CallSwitchNomination?
    requires StakeAfter(c, who, call, v, who) == x
    requires forall w :: w != v ==> StakeAfter(c, who, call, w, who) == StakeOf(c, w, who)
    ensures CallDoes(c, c', round, who, call)
  {
    hide StakeOf;
  }

  // The calls of candidates.

  lemma JoinCandidatesDoes(s: State, acc: AccountId, fee: Perbill, bond: nat)
    requires JoinCandidates(s, acc, fee, bond).result.Ok?
    ensures CallDoes(s.candidates, JoinCandidates(s, acc, fee, bond).state.candidates, s.round, acc, CallJoinCandidates(fee, bond))
  {
    hide CanReserve, Reserve;
  }

  lemma StatusDoes(c: Candidates, c': Candidates, round: nat, v: AccountId, call: Call)
    requires v in c && (call.CallLeaveCandidates? || call.CallGoOffline? || call.CallGoOnline?)
    requires c' == c[v := c[v].(status := StatusAfter(c[v].status, round, v, v, call))]
    ensures CallDoes(c, c', round, v, call)
  {
  }

  lemma StatusCallsDo(s: State, v: AccountId)
    ensures AcceptedDoes(s, LeaveCandidates(s, v), v, CallLeaveCandidates)
    ensures AcceptedDoes(s, GoOffline(s, v), v, CallGoOffline)
    ensures AcceptedDoes(s, GoOnline(s, v), v, CallGoOnline)
  {
    hide CallDoes;
    if LeaveCandidates(s, v).result.Ok? {
      StatusDoes(s.candidates, LeaveCandidates(s, v).state.candidates, s.round, v, CallLeaveCandidates);
    }
    if GoOffline(s, v).result.Ok? {
      StatusDoes(s.candidates, GoOffline(s, v).state.candidates, s.round, v, CallGoOffline);
    }
    if GoOnline(s, v).result.Ok? {
      StatusDoes(s.candidates, GoOnline(s, v).state.candidates, s.round, v, CallGoOnline);
    }
  }

  lemma OwnBondCallsDo(s: State, v: AccountId, x: nat)
    ensures AcceptedDoes(s, CandidateBondMore(s, v, x), v, CallCandidateBondMore(x))
    ensures AcceptedDoes(s, CandidateBondLess(s, v, x), v, CallCandidateBondLess(x))
  {
    hide CallDoes, OneStake, CanReserve, Reserve, Unreserve;
    if CandidateBondMore(s, v, x).result.Ok? {
      var c' := CandidateBondMore(s, v, x).state.candidates;
      OwnBondOneStake(s.candidates, v, c'[v]);
      OneStakeDoes(s.candidates, c', s.round, v, CallCandidateBondMore(x), v, c'[v].bond);
    }
    if CandidateBondLess(s, v, x).result.Ok? {
      var c' := CandidateBondLess(s, v, x).state.candidates;
      OwnBondOneStake(s.candidates, v, c'[v]);
      OneStakeDoes(s.candidates, c', s.round, v, CallCandidateBondLess(x), v, c'[v].bond);
    }
  }

  // The calls of nominators.

  lemma NominatorIsNoCandidate(s: State, n: AccountId)
    requires Solvent(s) && n in s.nominators
    ensures n !in s.candidates
  {
    hide Mirror, LocalSums, Floors, Covered;
  }

  lemma NominatorCallsDo(s: State, acc: AccountId, v: AccountId, x: nat)
    requires Solvent(s)
    ensures AcceptedDoes(s, JoinNominators(s, acc, v, x), acc, CallJoinNominators(v, x))
    ensures AcceptedDoes(s, NominateNew(s, acc, v, x), acc, CallNominateNew(v, x))
  {
    hide Solvent, CallDoes, OneStake, SetBacking, SetNomination, Moved, NominatorJoinsValidator, CanReserve, Reserve, PutCandidate;
    var c := s.candidates;
    if JoinNominators(s, acc, v, x).result.Ok? {
      JoinNominatorsEffect(s, acc, v, x);
      JoinNominatorsIsBondSet(s, acc, v, x);
      SetBackingOneStake(c, v, acc, x);
      OneStakeDoes(c, JoinNominators(s, acc, v, x).state.candidates, s.round, acc, CallJoinNominators(v, x), v, x);
    }
    if NominateNew(s, acc, v, x).result.Ok? {
      NominatorIsNoCandidate(s, acc);
      NominateNewIsBondSet(s, acc, v, x);
      SetBackingOneStake(c, v, acc, x);
      OneStakeDoes(c, NominateNew(s, acc, v, x).state.candidates, s.round, acc, CallNominateNew(v, x), v, x);
    }
  }

  lemma NominationCallsDo(s: State, acc: AccountId, v: AccountId, x: nat)
    requires Solvent(s)
    ensures AcceptedDoes(s, NominatorBondMore(s, acc, v, x), acc, CallNominatorBondMore(v, x))
    ensures AcceptedDoes(s, NominatorBondLess(s, acc, v, x), acc, CallNominatorBondLess(v, x))
  {
    hide Solvent, CallDoes, OneStake, SetBacking, SetNomination, Moved, CanReserve, Reserve, Unreserve, PutCandidate,
      AdjustNominator, AdjustNomination;
    var c := s.candidates;
    if acc in s.nominators && v in s.nominators[acc].nominations {
      var had := s.nominators[acc].nominations[v];
      ExistingBond(s, v, acc);
      StakeIsNomination(s, v, acc);
      if NominatorBondMore(s, acc, v, x).result.Ok? {
        NominatorBondMoreIsBondSet(s, acc, v, x);
        SetBackingOneStake(c, v, acc, had + x);
        OneStakeDoes(c, NominatorBondMore(s, acc, v, x).state.candidates, s.round, acc, CallNominatorBondMore(v, x), v, had + x);
      }
      if NominatorBondLess(s, acc, v, x).result.Ok? {
        NominatorBondLessIsBondSet(s, acc, v, x);
        SetBackingOneStake(c, v, acc, had - x);
        OneStakeDoes(c, NominatorBondLess(s, acc, v, x).state.candidates, s.round, acc, CallNominatorBondLess(v, x), v, had - x);
      }
    }
  }

  lemma RevokeNominationDoes(s: State, acc: AccountId, v: AccountId)
    requires Solvent(s) && RevokeNomination(s, acc, v).result.Ok?
    ensures CallDoes(s.candidates, RevokeNomination(s, acc, v).state.candidates, s.round, acc, CallRevokeNomination(v))
  {
    hide Solvent, CallDoes, OneStake, SetBacking, SetNomination, RevokeNomination, Unreserve;
    RevokeNominationIsDetach(s, acc, v);
    StakeIsNomination(s, v, acc);
    SetBackingOneStake(s.candidates, v, acc, 0);
    OneStakeDoes(s.candidates, RevokeNomination(s, acc, v).state.candidates, s.round, acc, CallRevokeNomination(v), v, 0);
  }

  lemma TwoStakesDo(c: Candidates, c1: Candidates, c2: Candidates, round: nat, acc: AccountId, from: AccountId, to: AccountId)
    requires from != to && OneStake(c, c1, from, acc, 0) && OneStake(c1, c2, to, acc, StakeOf(c, from, acc))
    ensures CallDoes(c, c2, round, acc, CallSwitchNomination(from, to))
  {
    hide StakeOf;
  }

  lemma SwitchNominationDoes(s: State, acc: AccountId, from: AccountId, to: AccountId)
    requires Solvent(s) && SwitchNomination(s, acc, from, to).result.Ok? && !Merges(s, acc, to)
    ensures CallDoes(s.candidates, SwitchNomination(s, acc, from, to).state.candidates, s.round, acc, CallSwitchNomination(from, to))
  {
    SwitchAccepted(s, acc, from, to);
    hide Solvent, CallDoes, OneStake, SetNomination, SwitchNomination, Merges;
    CleanSwitchIsTwoSets(s, acc, from, to);
    StakeIsNomination(s, from, acc);
    var c := s.candidates;
    var c1 := SetBacking(c, from, acc, 0);
    var c2 := SetBacking(c1, to, acc, s.nominators[acc].nominations[from]);
    SetBackingOneStake(c, from, acc, 0);
    SetBackingOneStake(c1, to, acc, s.nominators[acc].nominations[from]);
    TwoStakesDo(c, c1, c2, s.round, acc, from, to);
  }

  lemma SwitchAccepted(s: State, acc: AccountId, from: AccountId, to: AccountId)
    requires SwitchNomination(s, acc, from, to).result.Ok?
    ensures from != to && acc in s.nominators && from in s.candidates && to in s.candidates && from in s.nominators[acc].nominations
  {
    hide PutCandidate, SwapNomination, RmNominator, AddNominator, UpdateNominator;
  }

  // Leaving as a nominator.

  /** The loop changes no candidate but by taking the nominator out. */
  lemma {:induction false} LeaveEachOwn(s: State, n: AccountId, vs: seq<AccountId>)
    ensures var c, c' := s.candidates, LeaveEach(s, n, vs).state.candidates;
      && c'.Keys == c.Keys
      && forall v :: v in c ==>
           c'[v] == c[v].(nominators := c'[v].nominators, total := c'[v].total) && c'[v].nominators - {n} == c[v].nominators - {n}
    decreases |vs|
  {
    hide NominatorLeavesValidator;
    if vs != [] {
      LeavesOwn(s, n, vs[0]);
      if NominatorLeavesValidator(s, n, vs[0]).result.Ok? {
        LeaveEachOwn(NominatorLeavesValidator(s, n, vs[0]).state, n, vs[1..]);
      }
    }
  }

  lemma LeavesOwn(s: State, n: AccountId, v: AccountId)
    ensures var c, c' := s.candidates, NominatorLeavesValidator(s, n, v).state.candidates;
      && c'.Keys == c.Keys
      && forall w :: w in c ==>
           c'[w] == c[w].(nominators := c'[w].nominators, total := c'[w].total) && c'[w].nominators - {n} == c[w].nominators - {n}
  {
    hide Unreserve;
  }

  lemma LeaveNominatorsDoes(s: State, acc: AccountId)
    requires Solvent(s) && acc in s.nominators
    ensures CallDoes(s.candidates, LeaveNominators(s, acc).state.candidates, s.round, acc, CallLeaveNominators)
  {
    hide Solvent, LeaveEach, Moved, Backs, Sum, Totals;
    LeaveNominatorsAllOrNothing(s, acc);
    NominatorIsNoCandidate(s, acc);
    LeaveEachOwn(s, acc, List(s.nominators[acc].nominations.Keys));
    var c' := LeaveNominators(s, acc).state.candidates;
    assert c' == LeaveEach(s, acc, List(s.nominators[acc].nominations.Keys)).state.candidates;
    hide LeaveNominators, List;
    NobodyLeftDoes(s.candidates, c', s.round, acc) by {
      forall v ensures !(v in c' && acc in c'[v].nominators) {
        assert !Backs(c', v, acc);
        BacksMeans(c', v, acc);
      }
    }
  }

  lemma BacksMeans(c: Candidates, v: AccountId, n: AccountId)
    ensures Backs(c, v, n) <==> v in c && n in c[v].nominators
  {
  }

  lemma NobodyLeftDoes(c: Candidates, c': Candidates, round: nat, acc: AccountId)
    requires acc !in c && c'.Keys == c.Keys
    requires forall v :: v in c ==>
               c'[v] == c[v].(nominators := c'[v].nominators, total := c'[v].total) && c'[v].nominators - {acc} == c[v].nominators - {acc}
    requires forall v :: v in c' ==> acc !in c'[v].nominators
    ensures CallDoes(c, c', round, acc, CallLeaveNominators)
  {
    forall v, n ensures StakeOf(c', v, n) == StakeAfter(c, acc, CallLeaveNominators, v, n) {
      if v in c && n != v && n != acc {
        assert n in c'[v].nominators <==> n in c'[v].nominators - {acc};
        assert n in c[v].nominators <==> n in c[v].nominators - {acc};
      }
    }
  }

  // All calls.

  /** On solvent books every accepted call, but for a switch that merges, does to the stakes, the fees
      and the statuses what `CallDoes` says; which leaves nothing else open (`TableDeterminesBooks`). */
  lemma DispatchDoes(s: State, who: AccountId, call: Call)
    requires Solvent(s) && CleanCall(s, who, call) && Dispatch(s, who, call).result.Ok?
    ensures CallDoes(s.candidates, Dispatch(s, who, call).state.candidates, s.round, who, call)
  {
    hide Solvent, CallDoes, Merges, SetStakingExpectations, SetInflation, JoinCandidates, LeaveCandidates, GoOffline, GoOnline,
      CandidateBondMore, CandidateBondLess, JoinNominators, LeaveNominators, NominateNew, SwitchNomination,
      RevokeNomination, NominatorBondMore, NominatorBondLess;
    match call
    case CallSetStakingExpectations(e) => GovernanceDoes(s, who, call);
    case CallSetInflation(r) => GovernanceDoes(s, who, call);
    case CallJoinCandidates(fee, bond) => JoinCandidatesDoes(s, who, fee, bond);
    case CallLeaveCandidates => StatusCallsDo(s, who);
    case CallGoOffline => StatusCallsDo(s, who);
    case CallGoOnline => StatusCallsDo(s, who);
    case CallCandidateBondMore(more) => OwnBondCallsDo(s, who, more);
    case CallCandidateBondLess(less) => OwnBondCallsDo(s, who, less);
    case CallJoinNominators(v, amount) => NominatorCallsDo(s, who, v, amount);
    case CallLeaveNominators => LeaverNominates(s, who); LeaveNominatorsDoes(s, who);
    case CallNominateNew(v, amount) => NominatorCallsDo(s, who, v, amount);
    case CallSwitchNomination(from, to) => SwitchNominationDoes(s, who, from, to);
    case CallRevokeNomination(v) => RevokeNominationDoes(s, who, v);
    case CallNominatorBondMore(v, more) => NominationCallsDo(s, who, v, more);
    case CallNominatorBondLess(v, less) => NominationCallsDo(s, who, v, less);
  }

  lemma LeaverNominates(s: State, acc: AccountId)
    requires LeaveNominators(s, acc).result.Ok?
    ensures acc in s.nominators
  {
    hide LeaveEach, List;
  }

  lemma GovernanceDoes(s: State, who: AccountId, call: Call)
    requires Governance(call)
    ensures CallDoes(s.candidates, Dispatch(s, who, call).state.candidates, s.round, who, call)
  {
    GovernanceFrame(s, who, call);
    hide Dispatch, StakeOf;
  }

  /** The two calls of governance: each is accepted exactly when what it is given is ordered; one
      replaces the expectations, the other the round rates, by those whose multiples over a year reach
      the annual rates and do not exceed them; and nothing else changes. */
  lemma GovernanceExactly(s: State, who: AccountId, call: Call)
    requires Governance(call)
    ensures var o := Dispatch(s, who, call);
      && o.state == s.(inflation := o.state.inflation)
      && (call.CallSetStakingExpectations? ==> var e := call.expectations;
            && o.result == (if e.min <= e.ideal <= e.max then Ok else Err(InvalidSchedule))
            && o.state.inflation == if o.result.Ok? then s.inflation.(expected := e) else s.inflation)
      && (call.CallSetInflation? ==> var a, x := call.schedule, o.state.inflation.round;
            && o.result == (if a.min <= a.ideal <= a.max then Ok else Err(InvalidSchedule))
            && o.state.inflation.expected == s.inflation.expected
            && (o.result.Err? ==> x == s.inflation.round)
            && (o.result.Ok? ==> IsRoundRate(a.min, x.min) && IsRoundRate(a.ideal, x.ideal) && IsRoundRate(a.max, x.max)))
  {
    hide RoundsPerYear;
    GovernanceFrame(s, who, call);
  }

  /** `rate` is the greatest that, over the rounds of a year, does not exceed the annual rate. */
  ghost predicate IsRoundRate(annual: Perbill, rate: Perbill) {
    rate * RoundsPerYear() <= annual < (rate + 1) * RoundsPerYear()
  }
}
