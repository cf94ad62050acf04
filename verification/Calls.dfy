/** What one call may do to the records: the frame that every dispatchable stays in, and the cap on
    nominators that every one but a switch keeps. One lemma for each call. */
module Calls {
  import opened Primitives
  import opened Ascending
  import opened Currency
  import opened Inflation
  import opened StakeSpec
  import opened Indexes

  /** No candidate is gone and every one that was leaving still is, for the same round. */
  ghost predicate LeavingStays(c: Candidates, c': Candidates) {
    && (forall v :: v in c ==> v in c')
    && (forall v :: v in c && c[v].status.Leaving? ==> v in c' && c'[v].status == c[v].status)
  }

  /** No candidate has more nominators than the cap, unless it has no more than before. */
  ghost predicate Roomy(c: Candidates, c': Candidates) {
    forall v :: v in c' ==>
      |c'[v].nominators| <= cfg.maxNominatorsPerValidator || (v in c && |c'[v].nominators| <= |c[v].nominators|)
  }

  /** The rounds and the inflation settings are the same, exact indexes stay exact, and no exit is
      called off. */
  ghost predicate Tame(s: State, s': State) {
    SameRounds(s, s') && s'.inflation == s.inflation && (Indexed(s) ==> Indexed(s')) && LeavingStays(s.candidates, s'.candidates)
  }

  lemma Unchanged(s: State)
    ensures Tame(s, s) && Roomy(s.candidates, s.candidates)
  {
    hide Indexed;
  }

  lemma TameTwice(s0: State, s1: State, s2: State)
    requires Tame(s0, s1) && Tame(s1, s2)
    ensures Tame(s0, s2)
  {
    hide Indexed;
  }

  lemma RoomyTwice(c0: Candidates, c1: Candidates, c2: Candidates)
    requires Roomy(c0, c1) && Roomy(c1, c2)
    ensures Roomy(c0, c2)
  {
  }

  lemma PutRoomy(c: Candidates, v: AccountId, x: Candidate)
    requires |x.nominators| <= cfg.maxNominatorsPerValidator || (v in c && |x.nominators| <= |c[v].nominators|)
    ensures Roomy(c, c[v := x])
  {
  }

  lemma PutLeaving(c: Candidates, v: AccountId, x: Candidate)
    requires v in c && c[v].status.Leaving? ==> x.status == c[v].status
    ensures LeavingStays(c, c[v := x])
  {
  }

  /** A candidate rewritten with the same status; its pool entry follows its total. */
  lemma PutTame(s: State, s': State, v: AccountId, c: Candidate)
    requires v in s.candidates && c.status == s.candidates[v].status
    requires SameRounds(s, s') && s'.inflation == s.inflation
    requires s'.candidates == s.candidates[v := c] && s'.exits == s.exits
    requires s'.pool == if c.status.Active? then s.pool[v := c.total] else s.pool
    ensures Tame(s, s')
  {
    hide PoolIndexed, ExitsIndexed, LeavingStays;
    PutLeaving(s.candidates, v, c);
    if Indexed(s) {
      PutPool(s.candidates, s.pool, v, c);
      PutExits(s.candidates, s.exits, s.round, v, c);
    }
  }

  /** A candidate, not leaving so far, joins or takes another status, and both indexes follow. */
  lemma StatusTame(s: State, s': State, v: AccountId, c: Candidate)
    requires v in s.candidates ==> !s.candidates[v].status.Leaving?
    requires c.status.Leaving? ==> c.status.when == s.round + cfg.bondDuration
    requires SameRounds(s, s') && s'.inflation == s.inflation
    requires s'.candidates == s.candidates[v := c]
    requires s'.pool == if c.status.Active? then s.pool[v := c.total] else s.pool - {v}
    requires s'.exits == if c.status.Leaving? then s.exits[v := c.status.when] else s.exits
    ensures Tame(s, s')
  {
    hide PoolIndexed, ExitsIndexed, LeavingStays;
    PutLeaving(s.candidates, v, c);
    if Indexed(s) {
      StatusPool(s.candidates, s.pool, v, c);
      StatusExits(s.candidates, s.exits, s.round, v, c);
    }
  }

  lemma WithoutOne(m: map<AccountId, int>, k: AccountId)
    ensures |m - {k}| <= |m|
  {
    assert (m - {k}).Keys == m.Keys - {k};
  }

  lemma WithOne(m: map<AccountId, int>, k: AccountId, x: int)
    ensures |m[k := x]| == |m| + if k in m then 0 else 1
  {
    assert m[k := x].Keys == m.Keys + {k};
  }

  // Candidates.

  lemma JoinCandidatesTame(s: State, acc: AccountId, fee: Perbill, bond: nat)
    ensures Tame(s, JoinCandidates(s, acc, fee, bond).state)
    ensures Roomy(s.candidates, JoinCandidates(s, acc, fee, bond).state.candidates)
  {
    hide Indexed, Tame, Roomy, CanReserve, Reserve, Unreserve;
    if JoinCandidates(s, acc, fee, bond).result.Ok? {
      var s' := JoinCandidates(s, acc, fee, bond).state;
      StatusTame(s, s', acc, s'.candidates[acc]);
      PutRoomy(s.candidates, acc, s'.candidates[acc]);
    } else {
      assert JoinCandidates(s, acc, fee, bond).state == s;
      Unchanged(s);
    }
  }

  lemma LeaveCandidatesTame(s: State, v: AccountId)
    ensures Tame(s, LeaveCandidates(s, v).state)
    ensures Roomy(s.candidates, LeaveCandidates(s, v).state.candidates)
  {
    hide Indexed, Tame, Roomy;
    if LeaveCandidates(s, v).result.Ok? {
      var s' := LeaveCandidates(s, v).state;
      StatusTame(s, s', v, s'.candidates[v]);
      PutRoomy(s.candidates, v, s'.candidates[v]);
    } else {
      assert LeaveCandidates(s, v).state == s;
      Unchanged(s);
    }
  }

  lemma GoOfflineTame(s: State, v: AccountId)
    ensures Tame(s, GoOffline(s, v).state)
    ensures Roomy(s.candidates, GoOffline(s, v).state.candidates)
  {
    hide Indexed, Tame, Roomy;
    if GoOffline(s, v).result.Ok? {
      var s' := GoOffline(s, v).state;
      StatusTame(s, s', v, s'.candidates[v]);
      PutRoomy(s.candidates, v, s'.candidates[v]);
    } else {
      assert GoOffline(s, v).state == s;
      Unchanged(s);
    }
  }

  lemma GoOnlineTame(s: State, v: AccountId)
    ensures Tame(s, GoOnline(s, v).state)
    ensures Roomy(s.candidates, GoOnline(s, v).state.candidates)
  {
    hide Indexed, Tame, Roomy;
    if GoOnline(s, v).result.Ok? {
      var s' := GoOnline(s, v).state;
      StatusTame(s, s', v, s'.candidates[v]);
      PutRoomy(s.candidates, v, s'.candidates[v]);
    } else {
      assert GoOnline(s, v).state == s;
      Unchanged(s);
    }
  }

  lemma CandidateBondMoreTame(s: State, v: AccountId, more: nat)
    ensures Tame(s, CandidateBondMore(s, v, more).state)
    ensures Roomy(s.candidates, CandidateBondMore(s, v, more).state.candidates)
  {
    hide Indexed, Tame, Roomy, CanReserve, Reserve, Unreserve;
    if CandidateBondMore(s, v, more).result.Ok? {
      var s' := CandidateBondMore(s, v, more).state;
      PutTame(s, s', v, s'.candidates[v]);
      PutRoomy(s.candidates, v, s'.candidates[v]);
    } else {
      assert CandidateBondMore(s, v, more).state == s;
      Unchanged(s);
    }
  }

  lemma CandidateBondLessTame(s: State, v: AccountId, less: nat)
    ensures Tame(s, CandidateBondLess(s, v, less).state)
    ensures Roomy(s.candidates, CandidateBondLess(s, v, less).state.candidates)
  {
    hide Indexed, Tame, Roomy, CanReserve, Reserve, Unreserve;
    if CandidateBondLess(s, v, less).result.Ok? {
      var s' := CandidateBondLess(s, v, less).state;
      PutTame(s, s', v, s'.candidates[v]);
      PutRoomy(s.candidates, v, s'.candidates[v]);
    } else {
      assert CandidateBondLess(s, v, less).state == s;
      Unchanged(s);
    }
  }

  // Nominators.

  lemma NominatorLeavesValidatorTame(s: State, n: AccountId, v: AccountId)
    ensures Tame(s, NominatorLeavesValidator(s, n, v).state)
    ensures Roomy(s.candidates, NominatorLeavesValidator(s, n, v).state.candidates)
  {
    hide Indexed, Tame, Roomy, CanReserve, Reserve, Unreserve;
    if NominatorLeavesValidator(s, n, v).result.Ok? {
      var s' := NominatorLeavesValidator(s, n, v).state;
      WithoutOne(s.candidates[v].nominators, n);
      PutTame(s, s', v, s'.candidates[v]);
      PutRoomy(s.candidates, v, s'.candidates[v]);
    } else {
      assert NominatorLeavesValidator(s, n, v).state == s;
      Unchanged(s);
    }
  }

  lemma JoinNominatorsTame(s: State, acc: AccountId, v: AccountId, amount: nat)
    ensures Tame(s, JoinNominators(s, acc, v, amount).state)
    ensures Roomy(s.candidates, JoinNominators(s, acc, v, amount).state.candidates)
  {
    hide Indexed, Tame, Roomy, CanReserve, Reserve, Unreserve;
    if JoinNominators(s, acc, v, amount).result.Ok? {
      var s' := JoinNominators(s, acc, v, amount).state;
      WithOne(s.candidates[v].nominators, acc, amount);
      PutTame(s, s', v, s'.candidates[v]);
      PutRoomy(s.candidates, v, s'.candidates[v]);
    } else {
      assert JoinNominators(s, acc, v, amount).state == s;
      Unchanged(s);
    }
  }

  lemma NominateNewTame(s: State, acc: AccountId, v: AccountId, amount: nat)
    ensures Tame(s, NominateNew(s, acc, v, amount).state)
    ensures Roomy(s.candidates, NominateNew(s, acc, v, amount).state.candidates)
  {
    hide Indexed, Tame, Roomy, CanReserve, Reserve, Unreserve;
    if NominateNew(s, acc, v, amount).result.Ok? {
      var s' := NominateNew(s, acc, v, amount).state;
      WithOne(s.candidates[v].nominators, acc, amount);
      PutTame(s, s', v, s'.candidates[v]);
      PutRoomy(s.candidates, v, s'.candidates[v]);
    } else {
      assert NominateNew(s, acc, v, amount).state == s;
      Unchanged(s);
    }
  }

  lemma NominatorBondMoreTame(s: State, acc: AccountId, v: AccountId, more: nat)
    ensures Tame(s, NominatorBondMore(s, acc, v, more).state)
    ensures Roomy(s.candidates, NominatorBondMore(s, acc, v, more).state.candidates)
  {
    hide Indexed, Tame, Roomy, CanReserve, Reserve, Unreserve, AdjustNominator, AdjustNomination;
    if NominatorBondMore(s, acc, v, more).result.Ok? {
      var s' := NominatorBondMore(s, acc, v, more).state;
      AdjustedInPlace(s.candidates[v], acc, more);
      PutTame(s, s', v, s'.candidates[v]);
      PutRoomy(s.candidates, v, s'.candidates[v]);
    } else {
      assert NominatorBondMore(s, acc, v, more).state == s;
      Unchanged(s);
    }
  }

  lemma NominatorBondLessTame(s: State, acc: AccountId, v: AccountId, less: nat)
    ensures Tame(s, NominatorBondLess(s, acc, v, less).state)
    ensures Roomy(s.candidates, NominatorBondLess(s, acc, v, less).state.candidates)
  {
    hide Indexed, Tame, Roomy, CanReserve, Reserve, Unreserve, AdjustNominator, AdjustNomination;
    if NominatorBondLess(s, acc, v, less).result.Ok? {
      var s' := NominatorBondLess(s, acc, v, less).state;
      AdjustedInPlace(s.candidates[v], acc, 0 - less);
      PutTame(s, s', v, s'.candidates[v]);
      PutRoomy(s.candidates, v, s'.candidates[v]);
    } else {
      assert NominatorBondLess(s, acc, v, less).state == s;
      Unchanged(s);
    }
  }

  lemma AdjustedInPlace(c: Candidate, n: AccountId, change: int)
    ensures AdjustNominator(c, n, change).status == c.status
    ensures |AdjustNominator(c, n, change).nominators| == |c.nominators|
  {
    if n in c.nominators {
      WithOne(c.nominators, n, c.nominators[n] + change);
    }
  }

  lemma {:induction false} LeaveEachTame(s: State, n: AccountId, vs: seq<AccountId>)
    ensures Tame(s, LeaveEach(s, n, vs).state)
    ensures Roomy(s.candidates, LeaveEach(s, n, vs).state.candidates)
    decreases |vs|
  {
    hide Tame, Roomy, NominatorLeavesValidator;
    if vs == [] {
      Unchanged(s);
    } else {
      NominatorLeavesValidatorTame(s, n, vs[0]);
      var left := NominatorLeavesValidator(s, n, vs[0]).state;
      if NominatorLeavesValidator(s, n, vs[0]).result.Ok? {
        LeaveEachTame(left, n, vs[1..]);
        TameTwice(s, left, LeaveEach(s, n, vs).state);
        RoomyTwice(s.candidates, left.candidates, LeaveEach(s, n, vs).state.candidates);
      }
    }
  }

  /** Only the nominators' records change. */
  lemma NominatorsTame(s: State, s': State)
    requires s' == s.(nominators := s'.nominators)
    ensures Tame(s, s')
  {
    assert Indexed(s) ==> Indexed(s');
    hide Indexed;
  }

  lemma LeaveNominatorsTame(s: State, acc: AccountId)
    ensures Tame(s, LeaveNominators(s, acc).state)
    ensures Roomy(s.candidates, LeaveNominators(s, acc).state.candidates)
  {
    hide Tame, Roomy, LeaveEach, List;
    if acc in s.nominators {
      var vs := List(s.nominators[acc].nominations.Keys);
      LeaveEachTame(s, acc, vs);
      var left := LeaveEach(s, acc, vs);
      if left.result.Ok? {
        NominatorsTame(left.state, LeaveNominators(s, acc).state);
        TameTwice(s, left.state, LeaveNominators(s, acc).state);
      }
    } else {
      Unchanged(s);
    }
  }

  lemma RevokeNominationTame(s: State, acc: AccountId, v: AccountId)
    ensures Tame(s, RevokeNomination(s, acc, v).state)
    ensures Roomy(s.candidates, RevokeNomination(s, acc, v).state.candidates)
  {
    hide Tame, Roomy, NominatorLeavesValidator;
    NominatorLeavesValidatorTame(s, acc, v);
    if RevokeNomination(s, acc, v).result.Ok? {
      var left := NominatorLeavesValidator(s, acc, v).state;
      NominatorsTame(left, RevokeNomination(s, acc, v).state);
      TameTwice(s, left, RevokeNomination(s, acc, v).state);
    } else {
      Unchanged(s);
    }
  }

  lemma SwitchStatuses(s: State, acc: AccountId, from: AccountId, to: AccountId)
    requires from in s.candidates && to in s.candidates
    ensures RmNominator(s.candidates[from], acc).status == s.candidates[from].status
    ensures forall x :: AddNominator(s.candidates[to], acc, x).status == s.candidates[to].status
    ensures forall x :: UpdateNominator(s.candidates[to], acc, x).status == s.candidates[to].status
  {
  }

  /** A switch is tame too, but not always roomy. */
  lemma SwitchNominationTame(s: State, acc: AccountId, from: AccountId, to: AccountId)
    ensures Tame(s, SwitchNomination(s, acc, from, to).state)
  {
    hide Tame, SwapNomination, RmNominator, AddNominator, UpdateNominator;
    if SwitchNomination(s, acc, from, to).result.Ok? {
      SwitchStatuses(s, acc, from, to);
      var s' := SwitchNomination(s, acc, from, to).state;
      var one := PutCandidate(s, from, RmNominator(s.candidates[from], acc));
      var two := PutCandidate(one, to, s'.candidates[to]);
      PutTame(s, one, from, one.candidates[from]);
      PutTame(one, two, to, two.candidates[to]);
      NominatorsTame(two, s');
      TameTwice(s, one, two);
      TameTwice(s, two, s');
    } else {
      assert SwitchNomination(s, acc, from, to).state == s;
      Unchanged(s);
    }
  }

  // All calls.

  lemma GovernanceKeeps(s: State, s': State)
    requires s' == s.(inflation := s'.inflation)
    ensures SameRounds(s, s') && (Indexed(s) ==> Indexed(s'))
  {
    assert Indexed(s) ==> Indexed(s');
    hide Indexed;
  }

  predicate Governance(call: Call) {
    call.CallSetStakingExpectations? || call.CallSetInflation?
  }

  lemma ExpectationsFrame(s: State, e: Range<int>)
    ensures var s' := SetStakingExpectations(s, e).state; s' == s.(inflation := s'.inflation)
  {
    hide IsValidExpectation;
  }

  lemma ScheduleFrame(s: State, r: Range<Perbill>)
    ensures var s' := SetInflation(s, r).state; s' == s.(inflation := s'.inflation)
  {
    hide IsValidRate, AnnualToRound;
  }

  lemma GovernanceFrame(s: State, who: AccountId, call: Call)
    requires Governance(call)
    ensures var s' := Dispatch(s, who, call).state; s' == s.(inflation := s'.inflation)
  {
    hide SetStakingExpectations, SetInflation;
    if call.CallSetInflation? {
      ScheduleFrame(s, call.schedule);
    } else {
      ExpectationsFrame(s, call.expectations);
    }
  }

  /** Every call but the two of governance is tame, and every one of these but a switch is roomy. */
  lemma DispatchTame(s: State, who: AccountId, call: Call)
    requires !Governance(call)
    ensures Tame(s, Dispatch(s, who, call).state)
    ensures !call.CallSwitchNomination? ==> Roomy(s.candidates, Dispatch(s, who, call).state.candidates)
  {
    hide Tame, Roomy, JoinCandidates, LeaveCandidates, GoOffline, GoOnline, CandidateBondMore, CandidateBondLess,
      JoinNominators, LeaveNominators, NominateNew, SwitchNomination, RevokeNomination, NominatorBondMore, NominatorBondLess;
    match call
    case CallJoinCandidates(fee, bond) => JoinCandidatesTame(s, who, fee, bond);
    case CallLeaveCandidates => LeaveCandidatesTame(s, who);
    case CallGoOffline => GoOfflineTame(s, who);
    case CallGoOnline => GoOnlineTame(s, who);
    case CallCandidateBondMore(more) => CandidateBondMoreTame(s, who, more);
    case CallCandidateBondLess(less) => CandidateBondLessTame(s, who, less);
    case CallJoinNominators(v, amount) => JoinNominatorsTame(s, who, v, amount);
    case CallLeaveNominators => LeaveNominatorsTame(s, who);
    case CallNominateNew(v, amount) => NominateNewTame(s, who, v, amount);
    case CallSwitchNomination(from, to) => SwitchNominationTame(s, who, from, to);
    case CallRevokeNomination(v) => RevokeNominationTame(s, who, v);
    case CallNominatorBondMore(v, more) => NominatorBondMoreTame(s, who, v, more);
    case CallNominatorBondLess(v, less) => NominatorBondLessTame(s, who, v, less);
  }

  /** Every dispatchable, whatever its outcome, keeps the indexes exact and the rounds alone. */
  lemma DispatchIndexed(s: State, who: AccountId, call: Call)
    requires Indexed(s)
    ensures Indexed(Dispatch(s, who, call).state)
    ensures SameRounds(s, Dispatch(s, who, call).state)
  {
    hide Indexed, Dispatch, SameRounds, LeavingStays;
    if Governance(call) {
      GovernanceFrame(s, who, call);
      GovernanceKeeps(s, Dispatch(s, who, call).state);
    } else {
      DispatchTame(s, who, call);
    }
  }

  /** No dispatchable removes a candidate or calls off an exit. */
  lemma DispatchStays(s: State, who: AccountId, call: Call)
    ensures LeavingStays(s.candidates, Dispatch(s, who, call).state.candidates)
  {
    hide Indexed, Dispatch, SameRounds;
    if Governance(call) {
      GovernanceFrame(s, who, call);
    } else {
      DispatchTame(s, who, call);
    }
  }
}
