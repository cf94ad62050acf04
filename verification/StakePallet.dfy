/** The staking pallet: its storage items, the calls that read, change and write them back, and the
    loops at the end of a round. Every method is proved to do what `StakeSpec` says. */
module StakePallet {
  import opened Primitives
  import opened PerThing
  import opened Sums
  import opened Ascending
  import opened Currency
  import opened Inflation
  import opened OrderedSets
  import opened Records
  import opened Storage
  import opened RoundEnd
  import opened PayoutSplit
  import opened Books
  import opened Departures
  import opened Selection
  import Spec = StakeSpec

  class Pallet {
    var round: nat
    var nominators: NominatorRecords
    var candidates: ValidatorRecords
    var validators: seq<AccountId>
    var total: int
    var candidatePool: seq<Bond>
    var exitQueue: seq<Bond>
    var atStake: map<nat, SnapshotRecords>
    var staked: map<nat, int>
    var inflationConfig: InflationInfo
    var points: map<nat, nat>
    var awardedPts: map<nat, map<AccountId, nat>>
    var ledger: Ledger

    ghost predicate Valid()
      reads this
    {
      && Sorted(candidatePool) && Sorted(exitQueue)
      && ValidatorsSorted(candidates) && NominatorsSorted(nominators) && SnapshotsSorted(atStake)
    }

    ghost function Abs(): Spec.State
      reads this
    {
      Spec.State(round, NominatorsOf(nominators), CandidatesOf(candidates), validators, total, ToMap(candidatePool),
                 ToMap(exitQueue), AtStakeOf(atStake), staked, inflationConfig, points, awardedPts, ledger)
    }

    /** Empty storage, before genesis. */
    constructor (l: Ledger, inflation: InflationInfo)
      ensures Valid()
      ensures Abs() == Spec.State(0, map[], map[], [], 0, map[], map[], map[], map[], inflation, map[], map[], l)
    {
      round, nominators, candidates, validators, total := 0, map[], map[], [], 0;
      candidatePool, exitQueue, atStake, staked := [], [], map[], map[];
      inflationConfig, points, awardedPts, ledger := inflation, map[], map[], l;
    }

    // Storage reads and writes.

    predicate IsNominator(acc: AccountId)
      reads this
    {
      acc in nominators
    }

    predicate IsCandidate(acc: AccountId)
      reads this
    {
      acc in candidates
    }

    method GetCandidate(v: AccountId) returns (state: Validator)
      requires Valid() && v in candidates
      ensures fresh(state) && fresh(state.nominators) && state.Valid()
      ensures state.View() == Abs().candidates[v]
    {
      hide Sorted, ToMap;
      CandidateRead(candidates, v);
      state := new Validator.Decode(candidates[v]);
    }

    method PutCandidate(v: AccountId, state: Validator)
      requires Valid() && state.Valid()
      modifies this`candidates
      ensures Valid() && Abs() == old(Abs()).(candidates := old(Abs()).candidates[v := state.View()])
    {
      hide Sorted, ToMap;
      CandidateStored(candidates, v, state.Encode());
      candidates := candidates[v := state.Encode()];
    }

    method GetNominator(n: AccountId) returns (nominator: Nominator)
      requires Valid() && n in nominators
      ensures fresh(nominator) && fresh(nominator.nominations) && nominator.Valid()
      ensures nominator.View() == Abs().nominators[n]
    {
      hide Sorted, ToMap;
      NominatorRead(nominators, n);
      nominator := new Nominator.Decode(nominators[n]);
    }

    method PutNominator(n: AccountId, nominator: Nominator)
      requires Valid() && nominator.Valid()
      modifies this`nominators
      ensures Valid() && Abs() == old(Abs()).(nominators := old(Abs()).nominators[n := nominator.View()])
    {
      hide Sorted, ToMap;
      NominatorStored(nominators, n, nominator.Encode());
      nominators := nominators[n := nominator.Encode()];
    }

    method RemoveNominator(n: AccountId)
      requires Valid()
      modifies this`nominators
      ensures Valid() && Abs() == old(Abs()).(nominators := old(Abs()).nominators - {n})
    {
      hide Sorted, ToMap;
      NominatorRemoved(nominators, n);
      nominators := nominators - {n};
    }

    /** Rewrites the pool entry of a candidate that is active. */
    method UpdateActive(candidate: AccountId, newTotal: int)
      requires Valid()
      modifies this`candidatePool
      ensures Valid() && Abs() == old(Abs()).(pool := old(Abs()).pool[candidate := newTotal])
    {
      var pool := new OrderedSet.FromSortedSet(candidatePool);
      var removed := pool.Remove(Bond(candidate, 0));
      var inserted := pool.Insert(Bond(candidate, newTotal));
      candidatePool := pool.elems;
      assert ToMap(candidatePool) == old(ToMap(candidatePool))[candidate := newTotal];
    }

    /** Writes a candidate back; the pool entry of an active one follows its total. */
    method WriteBack(v: AccountId, state: Validator)
      requires Valid() && state.Valid()
      modifies this`candidates, this`candidatePool
      ensures Valid() && Abs() == Spec.PutCandidate(old(Abs()), v, state.View())
    {
      hide Valid, Abs;
      if state.IsActive() {
        UpdateActive(v, state.total);
      }
      PutCandidate(v, state);
    }

    /** Writes a candidate back together with a new ledger and a new total locked. */
    method Settle(l: Ledger, locked: int, v: AccountId, state: Validator)
      requires Valid() && state.Valid()
      modifies this`ledger, this`total, this`candidates, this`candidatePool
      ensures Valid() && Abs() == Spec.PutCandidate(old(Abs()).(ledger := l, total := locked), v, state.View())
    {
      hide Sorted, ToMap, ValidatorsSorted, NominatorsSorted, SnapshotsSorted, CandidatesOf, NominatorsOf, AtStakeOf, Spec.PutCandidate;
      ledger := l;
      total := locked;
      WriteBack(v, state);
    }

    // Governance.

    method SetStakingExpectations(expectations: Range<int>) returns (result: DispatchResult)
      requires Valid()
      modifies this`inflationConfig
      ensures Valid() && Spec.Outcome(Abs(), result) == Spec.SetStakingExpectations(old(Abs()), expectations)
    {
      if !IsValidExpectation(expectations) {
        return Err(InvalidSchedule);
      }
      inflationConfig := inflationConfig.(expected := expectations);
      return Ok;
    }

    method SetInflation(schedule: Range<Perbill>) returns (result: DispatchResult)
      requires Valid()
      modifies this`inflationConfig
      ensures Valid() && Spec.Outcome(Abs(), result) == Spec.SetInflation(old(Abs()), schedule)
    {
      if !IsValidRate(schedule) {
        return Err(InvalidSchedule);
      }
      inflationConfig := inflationConfig.(round := AnnualToRound(schedule));
      return Ok;
    }

    // Candidates.

    method JoinCandidates(acc: AccountId, fee: Perbill, bond: nat) returns (result: DispatchResult)
      requires Valid()
      modifies this
      ensures Valid() && Spec.Outcome(Abs(), result) == Spec.JoinCandidates(old(Abs()), acc, fee, bond)
    {
      hide Sorted, ToMap, ValidatorsSorted, NominatorsSorted, SnapshotsSorted, CandidatesOf, NominatorsOf, AtStakeOf, Reserve, Unreserve, CanReserve;
      if IsCandidate(acc) {
        return Err(CandidateExists);
      }
      if IsNominator(acc) {
        return Err(NominatorExists);
      }
      if fee > cfg.maxFee {
        return Err(FeeOverMax);
      }
      if bond < cfg.minValidatorStk {
        return Err(ValBondBelowMin);
      }
      var pool := new OrderedSet.FromSortedSet(candidatePool);
      var inserted := pool.Insert(Bond(acc, bond));
      if !inserted {
        return Err(CandidateExists);
      }
      if !CanReserve(ledger, acc, bond) {
        return Err(InsufficientBalance);
      }
      ledger := Reserve(ledger, acc, bond);
      var candidate := new Validator(acc, fee, bond);
      total := total + bond;
      PutCandidate(acc, candidate);
      candidatePool := pool.elems;
      return Ok;
    }

    method LeaveCandidates(validator: AccountId) returns (result: DispatchResult)
      requires Valid()
      modifies this
      ensures Valid() && Spec.Outcome(Abs(), result) == Spec.LeaveCandidates(old(Abs()), validator)
    {
      hide Sorted, ToMap, ValidatorsSorted, NominatorsSorted, SnapshotsSorted, CandidatesOf, NominatorsOf, AtStakeOf, Reserve, Unreserve, CanReserve;
      if validator !in candidates {
        return Err(CandidateDNE);
      }
      var state := GetCandidate(validator);
      if state.IsLeaving() {
        return Err(AlreadyLeaving);
      }
      var exits := new OrderedSet.FromSortedSet(exitQueue);
      var when := round + cfg.bondDuration;
      var inserted := exits.Insert(Bond(validator, when));
      if !inserted {
        return Err(AlreadyLeaving);
      }
      state.LeaveCandidates(when);
      RemoveFromPool(validator);
      exitQueue := exits.elems;
      PutCandidate(validator, state);
      return Ok;
    }

    /** Writes the pool back without `candidate`, if it was there. */
    method RemoveFromPool(candidate: AccountId)
      requires Valid()
      modifies this`candidatePool
      ensures Valid() && Abs() == old(Abs()).(pool := old(Abs()).pool - {candidate})
    {
      var pool := new OrderedSet.FromSortedSet(candidatePool);
      var removed := pool.Remove(Bond(candidate, 0));
      if removed {
        candidatePool := pool.elems;
      }
      assert ToMap(candidatePool) == old(ToMap(candidatePool)) - {candidate};
    }

    method GoOffline(validator: AccountId) returns (result: DispatchResult)
      requires Valid()
      modifies this
      ensures Valid() && Spec.Outcome(Abs(), result) == Spec.GoOffline(old(Abs()), validator)
    {
      if validator !in candidates {
        return Err(CandidateDNE);
      }
      var state := GetCandidate(validator);
      if !state.IsActive() {
        return Err(AlreadyOffline);
      }
      state.GoOffline();
      RemoveFromPool(validator);
      PutCandidate(validator, state);
      return Ok;
    }

    method GoOnline(validator: AccountId) returns (result: DispatchResult)
      requires Valid()
      modifies this
      ensures Valid() && Spec.Outcome(Abs(), result) == Spec.GoOnline(old(Abs()), validator)
    {
      if validator !in candidates {
        return Err(CandidateDNE);
      }
      var state := GetCandidate(validator);
      if state.IsActive() {
        return Err(AlreadyActive);
      }
      if state.IsLeaving() {
        return Err(CannotActivateIfLeaving);
      }
      state.GoOnline();
      var pool := new OrderedSet.FromSortedSet(candidatePool);
      var inserted := pool.Insert(Bond(validator, state.total));
      if !inserted {
        return Err(AlreadyActive);
      }
      candidatePool := pool.elems;
      PutCandidate(validator, state);
      return Ok;
    }

    method CandidateBondMore(validator: AccountId, more: nat) returns (result: DispatchResult)
      requires Valid()
      modifies this
      ensures Valid() && Spec.Outcome(Abs(), result) == Spec.CandidateBondMore(old(Abs()), validator, more)
    {
      hide Sorted, ToMap, ValidatorsSorted, NominatorsSorted, SnapshotsSorted, CandidatesOf, NominatorsOf, AtStakeOf, Reserve, Unreserve, CanReserve, Spec.PutCandidate;
      if validator !in candidates {
        return Err(CandidateDNE);
      }
      var state := GetCandidate(validator);
      if state.IsLeaving() {
        return Err(CannotActivateIfLeaving);
      }
      if !CanReserve(ledger, validator, more) {
        return Err(InsufficientBalance);
      }
      ledger := Reserve(ledger, validator, more);
      state.BondMore(more);
      WriteBack(validator, state);
      return Ok;
    }

    method CandidateBondLess(validator: AccountId, less: nat) returns (result: DispatchResult)
      requires Valid()
      modifies this
      ensures Valid() && Spec.Outcome(Abs(), result) == Spec.CandidateBondLess(old(Abs()), validator, less)
    {
      hide Sorted, ToMap, ValidatorsSorted, NominatorsSorted, SnapshotsSorted, CandidatesOf, NominatorsOf, AtStakeOf, Reserve, Unreserve, CanReserve, Spec.PutCandidate;
      if validator !in candidates {
        return Err(CandidateDNE);
      }
      var state := GetCandidate(validator);
      if state.IsLeaving() {
        return Err(CannotActivateIfLeaving);
      }
      var after := state.BondLess(less);
      if after.None? {
        return Err(Underflow);
      }
      if after.value < cfg.minValidatorStk {
        return Err(ValBondBelowMin);
      }
      ledger := Unreserve(ledger, validator, less);
      WriteBack(validator, state);
      return Ok;
    }

    // Nominators.

    method NominatorJoinsValidator(nominator: AccountId, amount: nat, validator: AccountId) returns (result: DispatchResult)
      requires Valid()
      modifies this
      ensures Valid() && Spec.Outcome(Abs(), result) == Spec.NominatorJoinsValidator(old(Abs()), nominator, amount, validator)
    {
      hide Sorted, ToMap, ValidatorsSorted, NominatorsSorted, SnapshotsSorted, CandidatesOf, NominatorsOf, AtStakeOf, Reserve, Unreserve, CanReserve,
        Spec.PutCandidate;
      if validator !in candidates {
        return Err(CandidateDNE);
      }
      var state := GetCandidate(validator);
      var inserted := state.nominators.Insert(Bond(nominator, amount));
      if !inserted {
        return Err(NominatorExists);
      }
      CountBonds(state.nominators.elems);
      if |state.nominators.elems| > cfg.maxNominatorsPerValidator {
        return Err(TooManyNominators);
      }
      if !CanReserve(ledger, nominator, amount) {
        return Err(InsufficientBalance);
      }
      state.total := state.total + amount;
      assert Abs() == old(Abs());
      Settle(Reserve(ledger, nominator, amount), total + amount, validator, state);
      return Ok;
    }

    method JoinNominators(acc: AccountId, validator: AccountId, amount: nat) returns (result: DispatchResult)
      requires Valid()
      modifies this
      ensures Valid() && Spec.Outcome(Abs(), result) == Spec.JoinNominators(old(Abs()), acc, validator, amount)
    {
      hide Sorted, ToMap, ValidatorsSorted, NominatorsSorted, SnapshotsSorted, CandidatesOf, NominatorsOf, AtStakeOf, Reserve, Unreserve, CanReserve,
        Spec.PutCandidate, Spec.NominatorJoinsValidator;
      if amount < cfg.minNominatorStk {
        return Err(NomBondBelowMin);
      }
      if IsNominator(acc) {
        return Err(NominatorExists);
      }
      if IsCandidate(acc) {
        return Err(CandidateExists);
      }
      result := NominatorJoinsValidator(acc, amount, validator);
      if result.Err? {
        return;
      }
      var nominator := new Nominator(validator, amount);
      PutNominator(acc, nominator);
    }

    method NominatorLeavesValidator(nominator: AccountId, validator: AccountId) returns (result: DispatchResult)
      requires Valid()
      modifies this
      ensures Valid() && Spec.Outcome(Abs(), result) == Spec.NominatorLeavesValidator(old(Abs()), nominator, validator)
    {
      hide Sorted, ToMap, ValidatorsSorted, NominatorsSorted, SnapshotsSorted, CandidatesOf, NominatorsOf, AtStakeOf, Reserve, Unreserve, CanReserve,
        Spec.PutCandidate;
      if validator !in candidates {
        return Err(CandidateDNE);
      }
      var state := GetCandidate(validator);
      var rest, exists' := FilterOut(state.nominators.elems, nominator);
      if exists'.None? {
        return Err(NominatorDNE);
      }
      var stake := exists'.value;
      state.nominators := new OrderedSet.From(rest);
      state.total := state.total - stake;
      assert Abs() == old(Abs());
      Settle(Unreserve(ledger, nominator, stake), total - stake, validator, state);
      return Ok;
    }

    /** Departs from each validator nominated, in ascending order; the first failure ends the call. */
    method LeaveNominators(acc: AccountId) returns (result: DispatchResult)
      requires Valid()
      modifies this
      ensures Valid() && Spec.Outcome(Abs(), result) == Spec.LeaveNominators(old(Abs()), acc)
    {
      hide Sorted, ToMap, ValidatorsSorted, NominatorsSorted, SnapshotsSorted, CandidatesOf, NominatorsOf, AtStakeOf, Reserve, Unreserve, CanReserve,
        Spec.PutCandidate, Spec.NominatorLeavesValidator;
      if acc !in nominators {
        return Err(NominatorDNE);
      }
      var nominator := GetNominator(acc);
      var bonds := nominator.nominations.elems;
      OwnersList(bonds);
      ghost var all := Spec.LeaveEach(Abs(), acc, Owners(bonds));
      assert bonds[0..] == bonds;
      for i := 0 to |bonds|
        invariant Valid() && Spec.LeaveEach(Abs(), acc, Owners(bonds[i..])) == all
      {
        OwnersFrom(bonds, i);
        result := NominatorLeavesValidator(acc, bonds[i].owner);
        if result.Err? {
          return;
        }
      }
      RemoveNominator(acc);
      return Ok;
    }

    method NominateNew(acc: AccountId, validator: AccountId, amount: nat) returns (result: DispatchResult)
      requires Valid()
      modifies this
      ensures Valid() && Spec.Outcome(Abs(), result) == Spec.NominateNew(old(Abs()), acc, validator, amount)
    {
      hide Sorted, ToMap, ValidatorsSorted, NominatorsSorted, SnapshotsSorted, CandidatesOf, NominatorsOf, AtStakeOf, Reserve, Unreserve, CanReserve,
        Spec.PutCandidate;
      if amount < cfg.minNomination {
        return Err(NominationBelowMin);
      }
      if acc !in nominators {
        return Err(NominatorDNE);
      }
      var nominator := GetNominator(acc);
      CountBonds(nominator.nominations.elems);
      if |nominator.nominations.elems| >= cfg.maxValidatorsPerNominator {
        return Err(ExceedMaxValidatorsPerNom);
      }
      if validator !in candidates {
        return Err(CandidateDNE);
      }
      var state := GetCandidate(validator);
      var added := nominator.AddNomination(Bond(validator, amount));
      if !added {
        return Err(AlreadyNominatedValidator);
      }
      CountBonds(state.nominators.elems);
      if |state.nominators.elems| >= cfg.maxNominatorsPerValidator {
        return Err(TooManyNominators);
      }
      var inserted := state.nominators.Insert(Bond(acc, amount));
      if !inserted {
        return Err(NominatorExists);
      }
      if !CanReserve(ledger, acc, amount) {
        return Err(InsufficientBalance);
      }
      state.total := state.total + amount;
      assert Abs() == old(Abs());
      StoreNomination(acc, validator, amount, nominator, state);
      return Ok;
    }

    /** Reserves the amount, counts it as locked and writes both records back. */
    method StoreNomination(acc: AccountId, validator: AccountId, amount: nat, n: Nominator, state: Validator)
      requires Valid() && n.Valid() && state.Valid() && CanReserve(ledger, acc, amount)
      modifies this
      ensures Valid()
      ensures var s := old(Abs());
        Abs() == Spec.PutCandidate(
                   s.(ledger := Reserve(s.ledger, acc, amount), total := s.total + amount, nominators := s.nominators[acc := n.View()]),
                   validator, state.View())
    {
      hide Sorted, ToMap, ValidatorsSorted, NominatorsSorted, SnapshotsSorted, CandidatesOf, NominatorsOf, AtStakeOf,
        Reserve, CanReserve, Spec.PutCandidate;
      PutNominator(acc, n);
      Settle(Reserve(ledger, acc, amount), total + amount, validator, state);
    }

    method SwitchNomination(acc: AccountId, from: AccountId, to: AccountId) returns (result: DispatchResult)
      requires Valid()
      modifies this
      ensures Valid() && Spec.Outcome(Abs(), result) == Spec.SwitchNomination(old(Abs()), acc, from, to)
    {
      hide Sorted, ToMap, ValidatorsSorted, NominatorsSorted, SnapshotsSorted, CandidatesOf, NominatorsOf, AtStakeOf,
        Spec.PutCandidate, Spec.SwapNomination, Spec.RmNominator, Spec.AddNominator, Spec.UpdateNominator,
        Validator.View, Nominator.View, Validator.Valid, Nominator.Valid;
      if from == to {
        return Err(CannotSwitchToSameNomination);
      }
      if acc !in nominators {
        return Err(NominatorDNE);
      }
      if from !in candidates || to !in candidates {
        return Err(CandidateDNE);
      }
      var nominator, fromValidator, toValidator := GetThree(acc, from, to);
      var amounts := nominator.SwapNomination(from, to);
      if amounts.None? {
        return Err(NominationDNE);
      }
      MoveBond(fromValidator, toValidator, acc, amounts.value.0, amounts.value.1);
      assert Abs() == old(Abs());
      hide Abs, Valid;
      StoreSwitch(acc, from, to, nominator, fromValidator, toValidator);
      return Ok;
    }

    /** The three records that a switch works on. */
    method GetThree(acc: AccountId, from: AccountId, to: AccountId) returns (n: Nominator, f: Validator, t: Validator)
      requires Valid() && acc in nominators && from in candidates && to in candidates
      ensures n.Valid() && fresh(n) && fresh(n.nominations) && n.View() == Abs().nominators[acc]
      ensures f.Valid() && fresh(f) && fresh(f.nominators) && f.View() == Abs().candidates[from]
      ensures t.Valid() && fresh(t) && fresh(t.nominators) && t.View() == Abs().candidates[to]
      ensures f != t && f.nominators != t.nominators
      ensures n.nominations != f.nominators && n.nominations != t.nominators
    {
      hide Sorted, ToMap, ValidatorsSorted, NominatorsSorted, SnapshotsSorted, CandidatesOf, NominatorsOf, AtStakeOf;
      n := GetNominator(acc);
      f := GetCandidate(from);
      t := GetCandidate(to);
    }

    /** The candidates' side of a switch: the old candidate loses the bond, the new one has its bond
        raised to `amount` when that is more than what was swapped, and gets a new one otherwise. */
    static method MoveBond(f: Validator, t: Validator, acc: AccountId, swapped: int, amount: int)
      requires f.Valid() && t.Valid() && f != t && f.nominators != t.nominators
      modifies f, t, t.nominators
      ensures f.Valid() && t.Valid()
      ensures f.View() == Spec.RmNominator(old(f.View()), acc)
      ensures t.View() == if amount > swapped then Spec.UpdateNominator(old(t.View()), acc, amount)
                          else Spec.AddNominator(old(t.View()), acc, swapped)
    {
      var newFrom := f.RmNominator(acc);
      var newTo: int;
      if amount > swapped {
        newTo := t.UpdateNominator(acc, amount);
      } else {
        newTo := t.AddNominator(acc, swapped);
      }
    }

    method StoreSwitch(acc: AccountId, from: AccountId, to: AccountId, n: Nominator, f: Validator, t: Validator)
      requires Valid() && n.Valid() && f.Valid() && t.Valid()
      modifies this
      ensures Valid()
      ensures Abs() == Spec.PutCandidate(Spec.PutCandidate(old(Abs()), from, f.View()), to, t.View()).(
                         nominators := old(Abs()).nominators[acc := n.View()])
    {
      hide Valid, Abs;
      WriteBack(from, f);
      WriteBack(to, t);
      PutNominator(acc, n);
    }

    method RevokeNomination(acc: AccountId, validator: AccountId) returns (result: DispatchResult)
      requires Valid()
      modifies this
      ensures Valid() && Spec.Outcome(Abs(), result) == Spec.RevokeNomination(old(Abs()), acc, validator)
    {
      hide Sorted, ToMap, ValidatorsSorted, NominatorsSorted, SnapshotsSorted, CandidatesOf, NominatorsOf, AtStakeOf, Reserve, Unreserve, CanReserve,
        Spec.PutCandidate, Spec.NominatorLeavesValidator;
      if acc !in nominators {
        return Err(NominatorDNE);
      }
      var nominator := GetNominator(acc);
      var remaining := nominator.RmNomination(validator);
      if remaining.None? {
        return Err(NominationDNE);
      }
      if remaining.value < cfg.minNominatorStk {
        return Err(NomBondBelowMin);
      }
      result := NominatorLeavesValidator(acc, validator);
      if result.Err? {
        return;
      }
      PutNominator(acc, nominator);
    }

    method NominatorBondMore(acc: AccountId, candidate: AccountId, more: nat) returns (result: DispatchResult)
      requires Valid()
      modifies this
      ensures Valid() && Spec.Outcome(Abs(), result) == Spec.NominatorBondMore(old(Abs()), acc, candidate, more)
    {
      hide Sorted, ToMap, ValidatorsSorted, NominatorsSorted, SnapshotsSorted, CandidatesOf, NominatorsOf, AtStakeOf, Reserve, Unreserve, CanReserve,
        Spec.PutCandidate, Spec.AdjustNominator, Spec.AdjustNomination;
      if acc !in nominators {
        return Err(NominatorDNE);
      }
      var nominations := GetNominator(acc);
      if candidate !in candidates {
        return Err(CandidateDNE);
      }
      var validator := GetCandidate(candidate);
      var amount := nominations.IncNomination(candidate, more);
      if amount.None? {
        return Err(NominationDNE);
      }
      if !CanReserve(ledger, acc, more) {
        return Err(InsufficientBalance);
      }
      ledger := Reserve(ledger, acc, more);
      validator.IncNominator(acc, more);
      PutNominator(acc, nominations);
      WriteBack(candidate, validator);
      return Ok;
    }

    method NominatorBondLess(acc: AccountId, candidate: AccountId, less: nat) returns (result: DispatchResult)
      requires Valid()
      modifies this
      ensures Valid() && Spec.Outcome(Abs(), result) == Spec.NominatorBondLess(old(Abs()), acc, candidate, less)
    {
      hide Sorted, ToMap, ValidatorsSorted, NominatorsSorted, SnapshotsSorted, CandidatesOf, NominatorsOf, AtStakeOf, Reserve, Unreserve, CanReserve,
        Spec.PutCandidate, Spec.AdjustNominator;
      if acc !in nominators {
        return Err(NominatorDNE);
      }
      var nominations := GetNominator(acc);
      if candidate !in candidates {
        return Err(CandidateDNE);
      }
      var validator := GetCandidate(candidate);
      var remaining := nominations.DecNomination(candidate, less);
      if remaining.None? {
        return Err(NominationDNE);
      }
      if remaining.value.None? {
        return Err(Underflow);
      }
      if remaining.value.value < cfg.minNomination {
        return Err(NominationBelowMin);
      }
      if nominations.total < cfg.minNominatorStk {
        return Err(NomBondBelowMin);
      }
      ledger := Unreserve(ledger, acc, less);
      validator.DecNominator(acc, less);
      PutNominator(acc, nominations);
      WriteBack(candidate, validator);
      return Ok;
    }

    // Authorship.

    /** Whether `acc` is in the validator set, by binary search. */
    method IsValidator(acc: AccountId) returns (found: bool)
      requires Increasing(validators)
      ensures found <==> acc in validators
    {
      var at: nat;
      found, at := BinarySearch(validators, acc);
    }

    /** Twenty points to the author of a block. */
    method NoteAuthor(author: AccountId)
      requires Valid()
      modifies this`awardedPts, this`points
      ensures Valid() && Abs() == Spec.NoteAuthor(old(Abs()), author)
      ensures var was, awards := Spec.AwardsOf(old(awardedPts), round), Spec.AwardsOf(awardedPts, round);
        && awards.Keys == was.Keys + {author}
        && awards[author] == 20 + (if author in was then was[author] else 0)
        && forall a :: a in was && a != author ==> awards[a] == was[a]
      ensures Spec.PointsOf(points, round) == 20 + Spec.PointsOf(old(points), round)
    {
      hide Sorted, ToMap;
      var now := round;
      var awards: map<AccountId, nat> := if now in awardedPts then awardedPts[now] else map[];
      var score: nat := (if author in awards then awards[author] else 0) + 20;
      awardedPts := awardedPts[now := awards[author := score]];
      points := points[now := (if now in points then points[now] else 0) + 20];
    }

    // The end of a round: payment.

    method Mint(amount: int, to: AccountId)
      modifies this`ledger
      ensures ledger == MintTo(old(ledger), to, amount)
    {
      if amount > cfg.existentialDeposit {
        ledger := DepositIntoExisting(ledger, to, amount);
      }
    }

    /** Pays the author and the nominators of one snapshot. */
    method PayAuthor(v: AccountId, state: SnapshotRecord, due: int)
      requires Sorted(state.nominators)
      modifies this`ledger
      ensures AuthorPaid(old(ledger), ledger, SnapshotOf(state), v, due)
      ensures forall y :: IsSplit(SnapshotOf(state), due, y) ==> Gained(old(ledger), ledger, v, y)
    {
      hide Sorted, ToMap, AuthorPaid, PartPaid, MintTo, Mul, FromRational, IsSplit, Gained;
      ghost var x := SnapshotOf(state);
      var s := state.nominators;
      EmptyMap(s);
      AuthorFirst(ledger, x, v, due);
      if s == [] {
        Mint(due, v);
        assert x.nominators.Keys == {};
      } else {
        var valPct := FromRational(state.bond, state.total);
        var commission := Mul(state.fee, due);
        var amount := due;
        var valDue: int;
        if commission > cfg.existentialDeposit {
          amount := due - commission;
          valDue := Mul(valPct, amount) + commission;
        } else {
          valDue := Mul(valPct, due);
        }
        Mint(valDue, v);
        ghost var done := {};
        EmptyMap(s[..0]);
        for i := 0 to |s|
          invariant done == ToMap(s[..i]).Keys
          invariant PartPaid(old(ledger), ledger, x, v, due, done)
        {
          NextBond(s, i);
          NominatorNext(old(ledger), ledger, x, v, due, done, s[i].owner);
          var percent := FromRational(s[i].amount, state.total);
          Mint(Mul(percent, amount), s[i].owner);
          done := done + {s[i].owner};
        }
        assert s[..|s|] == s && done == x.nominators.Keys;
      }
      EveryonePaid(old(ledger), ledger, x, v, due);
      PaidBySplit(old(ledger), ledger, x, v, due);
    }

    /** Takes the snapshot of `v` out of round `r`; the default when there is none. */
    method TakeSnapshot(r: nat, v: AccountId) returns (state: SnapshotRecord)
      requires SnapshotsSorted(atStake)
      modifies this`atStake
      ensures SnapshotsSorted(atStake) && Sorted(state.nominators)
      ensures var was := Spec.ExposuresOf(AtStakeOf(old(atStake)), r);
        && SnapshotOf(state) == Spec.Exposure(was, v)
        && AtStakeOf(atStake) == AtStakeOf(old(atStake))[r := was - {v}]
    {
      hide Sorted;
      var records := RecordsOf(atStake, r);
      ExposureTaken(atStake, r, v);
      hide SnapshotsSorted, AtStakeOf, RecordsOf, SnapshotOf;
      if v in records {
        state := records[v];
      } else {
        state := SnapshotRecord(0, 0, [], 0);
        NothingSorted(state);
      }
      var rest: SnapshotRecords := records - {v};
      atStake := atStake[r := rest];
    }

    /** Takes the snapshot of an author, and pays by it what is due for its blocks. */
    method PayDue(r: nat, v: AccountId, due: int)
      requires SnapshotsSorted(atStake)
      modifies this`atStake, this`ledger
      ensures SnapshotsSorted(atStake)
      ensures var was := Spec.ExposuresOf(AtStakeOf(old(atStake)), r);
        && AtStakeOf(atStake) == AtStakeOf(old(atStake))[r := was - {v}]
        && AuthorPaid(old(ledger), ledger, Spec.Exposure(was, v), v, due)
    {
      hide Sorted, AtStakeOf, SnapshotsSorted, Spec.Exposure, Spec.ExposuresOf, AuthorPaid;
      var state := TakeSnapshot(r, v);
      PayAuthor(v, state, due);
    }

    /** Pays the round that was `bondDuration` rounds before `next`. The awards of that round come in
        no particular order, and are gone afterwards. */
    method PayStakers(next: nat)
      requires Valid()
      modifies this`awardedPts, this`atStake, this`ledger
      ensures Valid() && Abs() == Spec.PayStakers(old(Abs()), next)
    {
      hide Sorted, ToMap, AtStakeOf, SnapshotsSorted, ValidatorsSorted, NominatorsSorted, CandidatesOf, NominatorsOf,
        Spec.PaidLedger, ComputeIssuance, Spec.Exposure, AuthorPaid, Mul, FromRational, Spec.ExposuresOf;
      if next > cfg.bondDuration {
        var r := next - cfg.bondDuration;
        var sum := if r in points then points[r] else 0;
        var stake := if r in staked then staked[r] else 0;
        var issuance := ComputeIssuance(inflationConfig, ledger.issuance, stake);
        var awards: map<AccountId, nat> := if r in awardedPts then awardedPts[r] else map[];
        awardedPts := awardedPts - {r};
        PayAwards(r, awards, sum, issuance);
      }
    }

    method PayAwards(r: nat, awards: map<AccountId, nat>, sum: nat, issuance: int)
      requires SnapshotsSorted(atStake)
      modifies this`atStake, this`ledger
      ensures SnapshotsSorted(atStake)
      ensures PaidSoFar(old(ledger), ledger, AtStakeOf(old(atStake)), AtStakeOf(atStake), r, awards, sum, issuance,
                        Spec.Payees(awards, sum, issuance))
    {
      hide Sorted, AtStakeOf, SnapshotsSorted, AuthorPaid, PaidSoFar, Spec.Exposure, Spec.ExposuresOf, Mul, FromRational;
      ghost var payees, paid := Spec.Payees(awards, sum, issuance), {};
      NonePaid(ledger, AtStakeOf(atStake), r, awards, sum, issuance);
      var left := awards.Keys;
      while left != {}
        invariant left <= awards.Keys && paid == payees - left && paid <= awards.Keys
        invariant SnapshotsSorted(atStake)
        invariant PaidSoFar(old(ledger), ledger, AtStakeOf(old(atStake)), AtStakeOf(atStake), r, awards, sum, issuance, paid)
        decreases left
      {
        var v :| v in left;
        left := left - {v};
        var due := Mul(FromRational(awards[v], sum), issuance);
        if due > cfg.existentialDeposit {
          ghost var l, a := ledger, AtStakeOf(atStake);
          PayDue(r, v, due);
          OnePaid(old(ledger), l, ledger, AtStakeOf(old(atStake)), a, AtStakeOf(atStake), r, awards, sum, issuance, paid, v);
          paid := paid + {v};
        }
      }
      assert paid == payees;
    }

    // The end of a round: exits.

    /** Returns one bond of a departing candidate, and drops the nomination. */
    method ReleaseBond(x: AccountId, bond: Bond)
      requires Valid()
      modifies this`ledger, this`nominators
      ensures Valid() && Abs() == Spec.ReleaseOne(old(Abs()), x, bond.owner, bond.amount)
      ensures ledger == Unreserve(old(ledger), bond.owner, bond.amount)
      ensures var ns, ns', n := old(Abs().nominators), Abs().nominators, bond.owner;
        if n in ns && x in ns[n].nominations then
          var left := ns[n].total - ns[n].nominations[x];
          ns' == if left == 0 then ns - {n} else ns[n := Spec.Nominator(ns[n].nominations - {x}, left)]
        else ns' == ns
    {
      hide Sorted, ToMap, ValidatorsSorted, NominatorsSorted, SnapshotsSorted, CandidatesOf, NominatorsOf, AtStakeOf, Unreserve;
      ledger := Unreserve(ledger, bond.owner, bond.amount);
      if bond.owner in nominators {
        var nominator := GetNominator(bond.owner);
        var remaining := nominator.RmNomination(x);
        if remaining.Some? {
          if remaining.value == 0 {
            RemoveNominator(bond.owner);
          } else {
            PutNominator(bond.owner, nominator);
          }
        }
      }
    }

    /** Returns the bonds of a departing candidate, in ascending order of nominator. */
    method ReleaseBonds(x: AccountId, s: seq<Bond>)
      requires Valid() && Sorted(s)
      modifies this`ledger, this`nominators
      ensures Valid() && Owners(s) == List(ToMap(s).Keys)
      ensures Abs() == Spec.ReleaseEach(old(Abs()), x, ToMap(s), List(ToMap(s).Keys))
    {
      OwnersList(s);
      hide Sorted, ToMap, Owners, List, Abs, Valid, Spec.ReleaseOne, Spec.ReleaseEach;
      OwnersIn(s, 0);
      ghost var bonds := ToMap(s);
      assert s[0..] == s;
      for i := 0 to |s|
        invariant Valid()
        invariant forall n :: n in Owners(s[i..]) ==> n in bonds
        invariant Spec.ReleaseEach(Abs(), x, bonds, Owners(s[i..])) == Spec.ReleaseEach(old(Abs()), x, bonds, Owners(s))
      {
        OwnersFrom(s, i);
        OwnersIn(s, i + 1);
        RemovedAt(s, i);
        ReleaseNext(Abs(), x, bonds, s[i].owner, Owners(s[i + 1..]));
        ReleaseBond(x, s[i]);
      }
      NoneLeft(Abs(), x, bonds, s);
    }

    /** Returns a departing candidate's own bond and drops its record. */
    method DropCandidate(x: AccountId, id: AccountId, bond: int, counted: int)
      requires Valid()
      modifies this`ledger, this`candidates, this`total
      ensures Valid()
      ensures var s := old(Abs());
        Abs() == s.(ledger := Unreserve(s.ledger, id, bond), total := s.total - counted, candidates := s.candidates - {x})
    {
      hide Sorted, ToMap, ValidatorsSorted, NominatorsSorted, SnapshotsSorted, CandidatesOf, NominatorsOf, AtStakeOf, Unreserve;
      CandidateRemoved(candidates, x);
      ledger := Unreserve(ledger, id, bond);
      total := total - counted;
      candidates := candidates - {x};
    }

    method ExitCandidate(x: AccountId)
      requires Valid()
      modifies this`ledger, this`nominators, this`candidates, this`total
      ensures Valid() && Abs() == Spec.ExitOne(old(Abs()), x)
    {
      hide Sorted, ToMap, ValidatorsSorted, NominatorsSorted, SnapshotsSorted, CandidatesOf, NominatorsOf, AtStakeOf, Unreserve,
        Spec.ReleaseEach, List;
      if x in candidates {
        CandidateRead(candidates, x);
        var state := candidates[x];
        assert Abs().candidates[x] == CandidateOf(state);
        hide Abs, Valid;
        ReleaseBonds(x, state.nominators);
        DropCandidate(x, state.id, state.bond, state.total);
      }
    }

    /** Executes the exits due, in ascending order of owner, and returns those that stay queued. */
    method ExitDue(queue: seq<Bond>, next: nat) returns (remain: seq<Bond>)
      requires Valid()
      modifies this`ledger, this`nominators, this`candidates, this`total
      ensures Valid() && remain == Staying(queue, next)
      ensures Abs() == Spec.ExitEach(old(Abs()), Owners(Due(queue, next)))
    {
      hide Abs, Valid, Owners, Due, Staying, Spec.ExitOne, Spec.ExitEach;
      remain := [];
      assert queue[0..] == queue;
      for i := 0 to |queue|
        invariant Valid()
        invariant Spec.ExitEach(Abs(), Owners(Due(queue[i..], next))) == Spec.ExitEach(old(Abs()), Owners(Due(queue, next)))
        invariant remain + Staying(queue[i..], next) == Staying(queue, next)
      {
        QueueFrom(queue, i, next);
        ExitNext(Abs(), queue[i], Due(queue[i + 1..], next));
        if queue[i].amount > next {
          remain := remain + [queue[i]];
        } else {
          ExitCandidate(queue[i].owner);
        }
      }
      QueueDone(Abs(), queue, next);
    }

    method ExecuteDelayedValidatorExits(next: nat)
      requires Valid()
      modifies this
      ensures Valid() && Abs() == Spec.ExecuteDelayedExits(old(Abs()), next)
    {
      hide Sorted, ToMap, ValidatorsSorted, NominatorsSorted, SnapshotsSorted, CandidatesOf, NominatorsOf, AtStakeOf, Spec.ExitEach,
        Owners, Due, Staying, Spec.DueExits, List;
      var remain := ExitDue(exitQueue, next);
      QueueSplits(exitQueue, next);
      DueOwners(exitQueue, next, old(Abs()));
      ExitsKept(old(Abs()), Owners(Due(exitQueue, next)));
      var rest := new OrderedSet.From(remain);
      exitQueue := rest.elems;
    }

    // The end of a round: selection.

    /** Chooses the validators of round `next` and stores their snapshots. Whatever the order that the
        sort gives to equal stakes, the choice is a best one; the count and the total are its own. */
    method BestCandidatesBecomeValidators(next: nat) returns (count: nat, sum: int, ghost chosen: set<AccountId>)
      requires Valid() && Abs().pool.Keys <= Abs().candidates.Keys
      modifies this`atStake, this`validators
      ensures Valid() && Spec.BestChoice(old(Abs()).pool, chosen) && chosen <= old(Abs()).candidates.Keys
      ensures Abs() == Spec.SelectValidators(old(Abs()), next, chosen)
      ensures validators == List(chosen)
      ensures CopiesTaken(old(Abs()).candidates, old(Abs()).atStake, Abs().atStake, next, chosen)
      ensures count == |chosen| && sum == Stake(Totals(old(Abs()).candidates), chosen)
    {
      hide Sorted, ToMap, ValidatorsSorted, NominatorsSorted, SnapshotsSorted, CandidatesOf, NominatorsOf, AtStakeOf,
        SortedBy, Spec.BestChoice, Distinct, Sum, Totals, CopiesTaken;
      var pool := SortBy(candidatePool, (b: Bond) => b.amount);
      var k := if |pool| < cfg.maxValidators then |pool| else cfg.maxValidators;
      assert |multiset(pool)| == |pool| && |multiset(candidatePool)| == |candidatePool|;
      HeaviestIsBest(candidatePool, pool, k);
      HeaviestPooled(candidatePool, pool, k);
      var best := Heaviest(pool, k);
      chosen := Elements(best);
      count, sum := TakeSnapshots(next, best);
      var sorted := SortBy(best, (a: AccountId) => a);
      InOrder(best, sorted);
      validators := sorted;
      SelectedCopies(old(Abs()), next, chosen);
    }

    /** Stores the snapshot of each of the accounts, which must all be candidates. */
    method TakeSnapshots(next: nat, accounts: seq<AccountId>) returns (count: nat, sum: int)
      requires Valid() && Distinct(accounts) && forall v :: v in accounts ==> v in candidates
      modifies this`atStake
      ensures Valid() && Abs() == old(Abs()).(atStake := SnapshotsTaken(old(Abs()), next, accounts))
      ensures count == |accounts| && sum == TotalOf(old(Abs()).candidates, accounts)
    {
      hide Sorted, ToMap, ValidatorsSorted, NominatorsSorted, SnapshotsSorted, CandidatesOf, NominatorsOf, AtStakeOf,
        SnapshotsTaken, TotalOf, Spec.SnapshotOf;
      count, sum := 0, 0;
      ghost var s := Abs();
      NoneTaken(s, next);
      assert accounts[..0] == [];
      for i := 0 to |accounts|
        invariant Valid() && candidates == old(candidates)
        invariant Abs() == s.(atStake := SnapshotsTaken(s, next, accounts[..i]))
        invariant count == i && sum == TotalOf(s.candidates, accounts[..i])
      {
        OneMoreTaken(s, next, accounts, i);
        var state := GetCandidate(accounts[i]);
        var exposure := state.IntoSnapshot();
        ExposureStored(atStake, next, accounts[i], exposure);
        atStake := atStake[next := RecordsOf(atStake, next)[accounts[i] := exposure]];
        count := count + 1;
        sum := sum + state.total;
      }
      assert accounts[..|accounts|] == accounts;
    }

    /** Genesis starts round 1 and snapshots what is locked. */
    method StartFirstRound()
      requires Valid()
      modifies this`round, this`staked
      ensures Valid() && Abs() == old(Abs()).(round := 1, staked := old(Abs()).staked[1 := old(Abs()).total])
    {
      hide Sorted, ToMap;
      round := 1;
      staked := staked[1 := total];
    }

    method OnFinalize(n: nat) returns (ghost chosen: set<AccountId>)
      requires Valid()
      requires n % cfg.blocksPerRound == 0 ==> Spec.BeforeSelection(Abs()).pool.Keys <= Spec.BeforeSelection(Abs()).candidates.Keys
      modifies this
      ensures Valid()
      ensures n % cfg.blocksPerRound == 0 ==> Spec.Selectable(old(Abs()), chosen)
      ensures Abs() == Spec.OnFinalize(old(Abs()), n, chosen)
    {
      hide Sorted, ToMap, ValidatorsSorted, NominatorsSorted, SnapshotsSorted, CandidatesOf, NominatorsOf, AtStakeOf,
        Spec.PayStakers, Spec.ExecuteDelayedExits, Spec.SelectValidators, Spec.BestChoice, CopiesTaken, List;
      chosen := {};
      if n % cfg.blocksPerRound == 0 {
        var next := round + 1;
        PayStakers(next);
        ExecuteDelayedValidatorExits(next);
        var count, sum;
        count, sum, chosen := BestCandidatesBecomeValidators(next);
        round := next;
        staked := staked[next := total];
      }
    }
  }

  /** What paying `paid` has done to the ledger and to the stored snapshots. */
  ghost predicate PaidSoFar(l0: Ledger, l: Ledger, a0: map<nat, Spec.Exposures>, a: map<nat, Spec.Exposures>,
                            r: nat, awards: map<AccountId, nat>, sum: nat, issuance: int, paid: set<AccountId>)
    requires paid <= awards.Keys
  {
    && l == Spec.PaidLedger(l0, Spec.ExposuresOf(a0, r), awards, sum, issuance, paid)
    && a == if paid == {} then a0 else a0[r := Spec.ExposuresOf(a0, r) - paid]
  }

  lemma NonePaid(l: Ledger, a: map<nat, Spec.Exposures>, r: nat, awards: map<AccountId, nat>, sum: nat, issuance: int)
    ensures PaidSoFar(l, l, a, a, r, awards, sum, issuance, {})
  {
    hide Spec.PaidLedger;
    NobodyPaid(l, Spec.ExposuresOf(a, r), awards, sum, issuance);
  }

  lemma OnePaid(l0: Ledger, l: Ledger, l': Ledger, a0: map<nat, Spec.Exposures>, a: map<nat, Spec.Exposures>,
                a': map<nat, Spec.Exposures>, r: nat, awards: map<AccountId, nat>, sum: nat, issuance: int,
                paid: set<AccountId>, v: AccountId)
    requires paid <= awards.Keys && v in awards && v !in paid
    requires PaidSoFar(l0, l, a0, a, r, awards, sum, issuance, paid)
    requires var was := Spec.ExposuresOf(a, r);
      a' == a[r := was - {v}] && AuthorPaid(l, l', Spec.Exposure(was, v), v, Spec.AmountDue(awards[v], sum, issuance))
    ensures PaidSoFar(l0, l', a0, a', r, awards, sum, issuance, paid + {v})
  {
    hide Spec.PaidLedger, AuthorPaid, Spec.AmountDue;
    TakenOnce(a0, r, paid, v);
    hide Spec.Exposure;
    AuthorNext(l0, l, l', Spec.ExposuresOf(a0, r), awards, sum, issuance, paid, v);
  }

  lemma NothingSorted(x: SnapshotRecord)
    requires x.nominators == []
    ensures Sorted(x.nominators) && SnapshotOf(x) == Spec.Snapshot(x.fee, x.bond, map[], x.total)
  {
  }

  /** The stored snapshots once those of `accounts` have been added for round `next`. */
  ghost function SnapshotsTaken(s: Spec.State, next: nat, accounts: seq<AccountId>): map<nat, Spec.Exposures>
    requires Elements(accounts) <= s.candidates.Keys
  {
    if accounts == [] then s.atStake
    else s.atStake[next := Spec.ExposuresOf(s.atStake, next) + Taken(s.candidates, Elements(accounts))]
  }

  /** From `a` to `a'` round `next` has got a copy of the record of each of `chosen`; every other
      snapshot is as it was. */
  ghost predicate CopiesTaken(c: Spec.Candidates, a: map<nat, Spec.Exposures>, a': map<nat, Spec.Exposures>, next: nat,
                              chosen: set<AccountId>) {
    && (forall v :: v in chosen ==>
          v in c && v in Spec.ExposuresOf(a', next) && Spec.Copies(Spec.ExposuresOf(a', next)[v], c[v]))
    && (forall v :: v !in chosen ==> Spec.Exposure(Spec.ExposuresOf(a', next), v) == Spec.Exposure(Spec.ExposuresOf(a, next), v))
    && (forall r: nat :: r != next ==> Spec.ExposuresOf(a', r) == Spec.ExposuresOf(a, r))
  }

  lemma SelectedCopies(s: Spec.State, next: nat, chosen: set<AccountId>)
    requires chosen <= s.candidates.Keys
    ensures CopiesTaken(s.candidates, s.atStake, Spec.SelectValidators(s, next, chosen).atStake, next, chosen)
  {
    hide List;
  }

  ghost function TotalOf(c: Spec.Candidates, accounts: seq<AccountId>): int
    requires Elements(accounts) <= c.Keys
  {
    Stake(Totals(c), Elements(accounts))
  }

  lemma NoneTaken(s: Spec.State, next: nat)
    ensures SnapshotsTaken(s, next, []) == s.atStake && TotalOf(s.candidates, []) == 0
  {
    assert Of(Totals(s.candidates), Elements([])) == map[];
  }

  lemma OneMore(accounts: seq<AccountId>, i: nat)
    requires i < |accounts| && Distinct(accounts)
    ensures var v, before, after := accounts[i], Elements(accounts[..i]), Elements(accounts[..i + 1]);
      && after == before + {v} && v !in before && after - {v} == before && v in Elements(accounts)
      && after <= Elements(accounts)
  {
    assert accounts[..i + 1] == accounts[..i] + [accounts[i]];
  }

  ghost function Taken(c: Spec.Candidates, s: set<AccountId>): Spec.Exposures
    requires s <= c.Keys
  {
    map v | v in s :: Spec.SnapshotOf(c[v])
  }

  lemma TakenNext(was: Spec.Exposures, c: Spec.Candidates, before: set<AccountId>, v: AccountId)
    requires before <= c.Keys && v in c
    ensures was + Taken(c, before + {v}) == (was + Taken(c, before))[v := Spec.SnapshotOf(c[v])]
    ensures was + Taken(c, {}) == was
  {
    hide Spec.SnapshotOf;
  }

  lemma OneMoreTaken(s: Spec.State, next: nat, accounts: seq<AccountId>, i: nat)
    requires i < |accounts| && Distinct(accounts) && Elements(accounts) <= s.candidates.Keys
    ensures Elements(accounts[..i]) <= s.candidates.Keys && Elements(accounts[..i + 1]) <= s.candidates.Keys
    ensures var was, v := SnapshotsTaken(s, next, accounts[..i]), accounts[i];
      && v in s.candidates
      && SnapshotsTaken(s, next, accounts[..i + 1])
         == was[next := Spec.ExposuresOf(was, next)[v := Spec.SnapshotOf(s.candidates[v])]]
      && TotalOf(s.candidates, accounts[..i + 1]) == TotalOf(s.candidates, accounts[..i]) + s.candidates[v].total
  {
    OneMore(accounts, i);
    assert accounts[..i] == [] ==> Elements(accounts[..i]) == {};
    hide Spec.SnapshotOf, Sum, Elements, Taken;
    var v, before, after := accounts[i], Elements(accounts[..i]), Elements(accounts[..i + 1]);
    TakenNext(Spec.ExposuresOf(s.atStake, next), s.candidates, before, v);
    StakeWithout(Totals(s.candidates), after, v);
    hide Stake, Totals;
  }

  lemma NextBond(s: seq<Bond>, i: nat)
    requires Sorted(s) && i < |s|
    ensures s[i].owner !in ToMap(s[..i])
    ensures ToMap(s[..i + 1]).Keys == ToMap(s[..i]).Keys + {s[i].owner}
    ensures s[i].owner in ToMap(s) && ToMap(s)[s[i].owner] == s[i].amount
  {
    RemovedAt(s, i);
    assert Sorted(s[..i + 1]);
    hide Sorted, ToMap;
    Appended(s, i);
  }

  lemma CountBonds(s: seq<Bond>)
    requires Sorted(s)
    ensures |s| == |ToMap(s)|
  {
    OwnersList(s);
  }

  lemma OwnersFrom(s: seq<Bond>, i: nat)
    requires i < |s|
    ensures Owners(s[i..]) == [s[i].owner] + Owners(s[i + 1..])
    ensures |Owners(s[i..])| == |s| - i
  {
  }

  /** Every owner from the `i`-th on is a key. */
  lemma OwnersIn(s: seq<Bond>, i: nat)
    requires i <= |s|
    ensures forall n :: n in Owners(s[i..]) ==> n in ToMap(s)
  {
    ToMapKeys(s);
    hide ToMap;
    forall n | n in Owners(s[i..]) ensures n in ToMap(s) {
      var j :| 0 <= j < |s[i..]| && Owners(s[i..])[j] == n;
      assert s[i + j].owner == n;
    }
  }

  lemma QueueFrom(q: seq<Bond>, i: nat, next: nat)
    requires i < |q|
    ensures Staying(q[i..], next) == if q[i].amount <= next then Staying(q[i + 1..], next) else [q[i]] + Staying(q[i + 1..], next)
    ensures Due(q[i..], next) == if q[i].amount <= next then [q[i]] + Due(q[i + 1..], next) else Due(q[i + 1..], next)
  {
    assert q[i..][0] == q[i] && q[i..][1..] == q[i + 1..];
    assert [] + Due(q[i + 1..], next) == Due(q[i + 1..], next);
    assert [] + Staying(q[i + 1..], next) == Staying(q[i + 1..], next);
  }

  lemma ExitNext(s: Spec.State, b: Bond, d: seq<Bond>)
    ensures Spec.ExitEach(s, Owners([b] + d)) == Spec.ExitEach(Spec.ExitOne(s, b.owner), Owners(d))
  {
    hide Spec.ExitOne;
    assert Owners([b] + d) == [b.owner] + Owners(d);
    assert ([b.owner] + Owners(d))[1..] == Owners(d);
  }

  lemma ReleaseNext(s: Spec.State, x: AccountId, bonds: map<AccountId, int>, n: AccountId, ns: seq<AccountId>)
    requires n in bonds && forall m :: m in ns ==> m in bonds
    ensures forall m :: m in [n] + ns ==> m in bonds
    ensures Spec.ReleaseEach(s, x, bonds, [n] + ns) == Spec.ReleaseEach(Spec.ReleaseOne(s, x, n, bonds[n]), x, bonds, ns)
  {
    hide Spec.ReleaseOne;
    assert ([n] + ns)[1..] == ns;
  }

  lemma NoneLeft(s: Spec.State, x: AccountId, bonds: map<AccountId, int>, all: seq<Bond>)
    ensures Owners(all[|all|..]) == [] && Spec.ReleaseEach(s, x, bonds, []) == s
  {
  }

  lemma QueueDone(s: Spec.State, q: seq<Bond>, next: nat)
    ensures Staying(q[|q|..], next) == [] && Spec.ExitEach(s, Owners(Due(q[|q|..], next))) == s
  {
  }

  lemma DueKeys(s: Spec.State, next: nat)
    ensures Spec.DueExits(s, next) == AtMost(s.exits, next).Keys
  {
  }

  lemma DueOwners(q: seq<Bond>, next: nat, s: Spec.State)
    requires Sorted(q) && s.exits == ToMap(q)
    ensures Owners(Due(q, next)) == List(Spec.DueExits(s, next))
    ensures ToMap(Staying(q, next)) == s.exits - Spec.DueExits(s, next)
  {
    QueueSplits(q, next);
    OwnersList(Due(q, next));
    hide Sorted, ToMap, Due, Staying, Owners, List, Lists, Increasing, AtMost, Spec.DueExits;
    DueKeys(s, next);
  }

  lemma ExitsKept(s: Spec.State, xs: seq<AccountId>)
    ensures Spec.ExitEach(s, xs).exits == s.exits
  {
    hide Spec.ExitEach;
    ExitEachFrame(s, xs);
  }
}
