/** Which calls are refused, and why: the answer to every call, told from the table of stakes, the
    statuses and the floors alone. On solvent states with exact indexes, so on every clean run. */
module Verdicts {
  import opened Primitives
  import opened Currency
  import opened StakeSpec
  import opened Books
  import opened Solvency
  import opened Departures
  import opened Indexes
  import opened StakeTable

  /** The first reason to refuse call `call` of `who`, if there is one. */
  ghost function Verdict(s: State, who: AccountId, call: Call): DispatchResult {
    var c, ns, free := s.candidates, s.nominators, Free(s.ledger, who);
    match call
    case CallSetStakingExpectations(e) => if e.min <= e.ideal <= e.max then Ok else Err(InvalidSchedule)
    case CallSetInflation(r) => if r.min <= r.ideal <= r.max then Ok else Err(InvalidSchedule)
    case CallJoinCandidates(fee, bond) =>
      if who in c then Err(CandidateExists)
      else if who in ns then Err(NominatorExists)
      else if cfg.maxFee < fee then Err(FeeOverMax)
      else if bond < cfg.minValidatorStk then Err(ValBondBelowMin)
      else if free < bond then Err(InsufficientBalance)
      else Ok
    case CallLeaveCandidates =>
      if who !in c then Err(CandidateDNE) else if c[who].status.Leaving? then Err(AlreadyLeaving) else Ok
    case CallGoOffline =>
      if who !in c then Err(CandidateDNE) else if c[who].status != Active then Err(AlreadyOffline) else Ok
    case CallGoOnline =>
      if who !in c then Err(CandidateDNE)
      else if c[who].status == Active then Err(AlreadyActive)
      else if c[who].status != Idle then Err(CannotActivateIfLeaving)
      else Ok
    case CallCandidateBondMore(more) =>
      if who !in c then Err(CandidateDNE)
      else if c[who].status.Leaving? then Err(CannotActivateIfLeaving)
      else if free < more then Err(InsufficientBalance)
      else Ok
    case CallCandidateBondLess(less) =>
      if who !in c then Err(CandidateDNE)
      else if c[who].status.Leaving? then Err(CannotActivateIfLeaving)
      else if StakeOf(c, who, who) <= less then Err(Underflow)
      else if StakeOf(c, who, who) - less < cfg.minValidatorStk then Err(ValBondBelowMin)
      else Ok
    case CallJoinNominators(v, amount) =>
      if amount < cfg.minNominatorStk then Err(NomBondBelowMin)
      else if who in ns then Err(NominatorExists)
      else if who in c then Err(CandidateExists)
      else if v !in c then Err(CandidateDNE)
      else if cfg.maxNominatorsPerValidator <= |c[v].nominators| then Err(TooManyNominators)
      else if free < amount then Err(InsufficientBalance)
      else Ok
    case CallLeaveNominators => if who !in ns then Err(NominatorDNE) else Ok
    case CallNominateNew(v, amount) =>
      if amount < cfg.minNomination then Err(NominationBelowMin)
      else if who !in ns then Err(NominatorDNE)
      else if cfg.maxValidatorsPerNominator <= |ns[who].nominations| then Err(ExceedMaxValidatorsPerNom)
      else if v !in c then Err(CandidateDNE)
      else if StakeOf(c, v, who) != 0 then Err(AlreadyNominatedValidator)
      else if cfg.maxNominatorsPerValidator <= |c[v].nominators| then Err(TooManyNominators)
      else if free < amount then Err(InsufficientBalance)
      else Ok
    case CallSwitchNomination(from, to) =>
      if from == to then Err(CannotSwitchToSameNomination)
      else if who !in ns then Err(NominatorDNE)
      else if from !in c || to !in c then Err(CandidateDNE)
      else if StakeOf(c, from, who) == 0 then Err(NominationDNE)
      else Ok
    case CallRevokeNomination(v) =>
      if who !in ns then Err(NominatorDNE)
      else if StakeOf(c, v, who) == 0 then Err(NominationDNE)
      else if ns[who].total - StakeOf(c, v, who) < cfg.minNominatorStk then Err(NomBondBelowMin)
      else Ok
    case CallNominatorBondMore(v, more) =>
      if who !in ns then Err(NominatorDNE)
      else if v !in c then Err(CandidateDNE)
      else if StakeOf(c, v, who) == 0 then Err(NominationDNE)
      else if free < more then Err(InsufficientBalance)
      else Ok
    case CallNominatorBondLess(v, less) =>
      if who !in ns then Err(NominatorDNE)
      else if v !in c then Err(CandidateDNE)
      else if StakeOf(c, v, who) == 0 then Err(NominationDNE)
      else if StakeOf(c, v, who) <= less then Err(Underflow)
      else if StakeOf(c, v, who) - less < cfg.minNomination then Err(NominationBelowMin)
      else if ns[who].total - less < cfg.minNominatorStk then Err(NomBondBelowMin)
      else Ok
  }

  lemma FreeDecides(l: Ledger, a: AccountId, v: nat)
    ensures CanReserve(l, a, v) <==> v <= Free(l, a)
  {
  }

  lemma CandidateVerdicts(s: State, who: AccountId, fee: Perbill, x: nat)
    requires Indexed(s)
    ensures JoinCandidates(s, who, fee, x).result == Verdict(s, who, CallJoinCandidates(fee, x))
    ensures CandidateBondMore(s, who, x).result == Verdict(s, who, CallCandidateBondMore(x))
    ensures CandidateBondLess(s, who, x).result == Verdict(s, who, CallCandidateBondLess(x))
  {
    FreeDecides(s.ledger, who, x);
    PoolHasCandidates(s, who);
    hide Indexed, CanReserve, Reserve, Unreserve, Free, PutCandidate;
  }

  lemma PoolHasCandidates(s: State, v: AccountId)
    requires Indexed(s)
    ensures v !in s.candidates ==> v !in s.pool
    ensures v in s.candidates && !s.candidates[v].status.Active? ==> v !in s.pool
    ensures v in s.candidates && !s.candidates[v].status.Leaving? ==> v !in s.exits
  {
  }

  lemma StatusVerdicts(s: State, who: AccountId)
    requires Indexed(s)
    ensures LeaveCandidates(s, who).result == Verdict(s, who, CallLeaveCandidates)
    ensures GoOffline(s, who).result == Verdict(s, who, CallGoOffline)
    ensures GoOnline(s, who).result == Verdict(s, who, CallGoOnline)
  {
    PoolHasCandidates(s, who);
    hide Indexed;
  }

  lemma NominatorVerdicts(s: State, who: AccountId, v: AccountId, x: nat)
    requires Solvent(s)
    ensures JoinNominators(s, who, v, x).result == Verdict(s, who, CallJoinNominators(v, x))
    ensures NominateNew(s, who, v, x).result == Verdict(s, who, CallNominateNew(v, x))
  {
    FreeDecides(s.ledger, who, x);
    BackedByNominators(s, v, who);
    hide Solvent, CanReserve, Reserve, Free, PutCandidate, StakeOf;
  }

  lemma BackedByNominators(s: State, v: AccountId, n: AccountId)
    requires Solvent(s)
    ensures v in s.candidates && n in s.candidates[v].nominators ==> n in s.nominators && v in s.nominators[n].nominations
    ensures n in s.nominators ==>
              && (v in s.nominators[n].nominations <==> StakeOf(s.candidates, v, n) != 0)
              && (v in s.nominators[n].nominations ==> v in s.candidates && n in s.candidates[v].nominators
                                                       && s.nominators[n].nominations[v] == StakeOf(s.candidates, v, n))
  {
    if n in s.nominators {
      StakeIsNomination(s, v, n);
    }
    hide LocalSums, Floors, Covered;
    assert Backs(s.candidates, v, n) <==> Nominates(s.nominators, n, v);
  }

  lemma BondMoreVerdict(s: State, who: AccountId, v: AccountId, more: nat)
    requires Solvent(s)
    ensures NominatorBondMore(s, who, v, more).result == Verdict(s, who, CallNominatorBondMore(v, more))
  {
    FreeDecides(s.ledger, who, more);
    BackedByNominators(s, v, who);
    hide Solvent, CanReserve, Reserve, Free, PutCandidate, AdjustNominator, AdjustNomination, StakeOf;
  }

  lemma BondLessVerdict(s: State, who: AccountId, v: AccountId, less: nat)
    requires Solvent(s)
    ensures NominatorBondLess(s, who, v, less).result == Verdict(s, who, CallNominatorBondLess(v, less))
  {
    BackedByNominators(s, v, who);
    hide Solvent, Unreserve, PutCandidate, AdjustNominator, AdjustNomination, StakeOf;
  }

  lemma LeaveVerdict(s: State, who: AccountId)
    requires Solvent(s)
    ensures LeaveNominators(s, who).result == Verdict(s, who, CallLeaveNominators)
  {
    hide Solvent, LeaveNominators, Moved, Backs, Left;
    if who in s.nominators {
      LeaveNominatorsEffect(s, who);
    } else {
      LeaveNominatorsAllOrNothing(s, who);
    }
  }

  lemma RevokeVerdict(s: State, who: AccountId, v: AccountId)
    requires Solvent(s)
    ensures RevokeNomination(s, who, v).result == Verdict(s, who, CallRevokeNomination(v))
  {
    BackedByNominators(s, v, who);
    hide Solvent, Unreserve, PutCandidate, StakeOf;
  }

  lemma SwitchVerdict(s: State, who: AccountId, from: AccountId, to: AccountId)
    requires Solvent(s)
    ensures SwitchNomination(s, who, from, to).result == Verdict(s, who, CallSwitchNomination(from, to))
  {
    BackedByNominators(s, from, who);
    hide Solvent, PutCandidate, SwapNomination, RmNominator, AddNominator, UpdateNominator, StakeOf;
  }

  /** On solvent states with exact indexes the answer to every call is the first reason in its list
      that applies, and Ok when none does. */
  lemma DispatchVerdict(s: State, who: AccountId, call: Call)
    requires Solvent(s) && Indexed(s)
    ensures Dispatch(s, who, call).result == Verdict(s, who, call)
  {
    hide Solvent, Indexed, Verdict, JoinCandidates, LeaveCandidates, GoOffline, GoOnline, CandidateBondMore, CandidateBondLess,
      JoinNominators, LeaveNominators, NominateNew, SwitchNomination, RevokeNomination, NominatorBondMore, NominatorBondLess;
    match call
    case CallSetStakingExpectations(e) => GovernanceVerdicts(s, who, call);
    case CallSetInflation(r) => GovernanceVerdicts(s, who, call);
    case CallJoinCandidates(fee, bond) => CandidateVerdicts(s, who, fee, bond);
    case CallLeaveCandidates => StatusVerdicts(s, who);
    case CallGoOffline => StatusVerdicts(s, who);
    case CallGoOnline => StatusVerdicts(s, who);
    case CallCandidateBondMore(more) => CandidateVerdicts(s, who, 0, more);
    case CallCandidateBondLess(less) => CandidateVerdicts(s, who, 0, less);
    case CallJoinNominators(v, amount) => NominatorVerdicts(s, who, v, amount);
    case CallLeaveNominators => LeaveVerdict(s, who);
    case CallNominateNew(v, amount) => NominatorVerdicts(s, who, v, amount);
    case CallSwitchNomination(from, to) => SwitchVerdict(s, who, from, to);
    case CallRevokeNomination(v) => RevokeVerdict(s, who, v);
    case CallNominatorBondMore(v, more) => BondMoreVerdict(s, who, v, more);
    case CallNominatorBondLess(v, less) => BondLessVerdict(s, who, v, less);
  }

  lemma GovernanceVerdicts(s: State, who: AccountId, call: Call)
    requires call.CallSetStakingExpectations? || call.CallSetInflation?
    ensures Dispatch(s, who, call).result == Verdict(s, who, call)
  {
  }
}
