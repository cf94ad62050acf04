/** What holds after every step of every clean run: a run in which no accepted switch targets a
    validator that the caller already nominates. */
module CleanRuns {
  import opened Primitives
  import opened Sums
  import opened Currency
  import opened Inflation
  import opened AuthorDraw
  import opened StakeSpec
  import opened Books
  import opened Solvency
  import opened Switching
  import opened Departures
  import opened Payout
  import opened Indexes
  import opened Calls
  import opened Rounds
  import opened Chain
  import opened EveryRun

  ghost predicate SnapshotsSound(atStake: StakeMap) {
    forall r: nat, v :: v in ExposuresOf(atStake, r) ==> SnapshotSound(ExposuresOf(atStake, r)[v])
  }

  ghost predicate CleanKept(c: Chain) {
    Solvent(c.stake) && SnapshotsSound(c.stake.atStake)
  }

  // Solvency through every call.

  lemma StatusCallsSolvent(s: State, v: AccountId)
    requires Solvent(s)
    ensures Solvent(LeaveCandidates(s, v).state)
    ensures Solvent(GoOffline(s, v).state)
    ensures Solvent(GoOnline(s, v).state)
  {
    hide Solvent;
    if LeaveCandidates(s, v).result.Ok? {
      StatusSolvent(s, LeaveCandidates(s, v).state, v, Leaving(s.round + cfg.bondDuration));
    } else {
      assert LeaveCandidates(s, v).state == s;
    }
    if GoOffline(s, v).result.Ok? {
      StatusSolvent(s, GoOffline(s, v).state, v, Idle);
    } else {
      assert GoOffline(s, v).state == s;
    }
    if GoOnline(s, v).result.Ok? {
      StatusSolvent(s, GoOnline(s, v).state, v, Active);
    } else {
      assert GoOnline(s, v).state == s;
    }
  }

  lemma GovernanceSolvent(s: State, e: Range<int>, r: Range<Perbill>)
    requires Solvent(s)
    ensures Solvent(SetStakingExpectations(s, e).state)
    ensures Solvent(SetInflation(s, r).state)
  {
    hide Solvent, IsValidExpectation, IsValidRate, AnnualToRound;
    var s1, s2 := SetStakingExpectations(s, e).state, SetInflation(s, r).state;
    assert s1 == s.(inflation := s1.inflation);
    assert s2 == s.(inflation := s2.inflation);
    hide SetStakingExpectations, SetInflation;
    SolventParts(s, s1);
    SolventParts(s, s2);
  }

  lemma LeaveNominatorsSolvent(s: State, acc: AccountId)
    requires Solvent(s)
    ensures Solvent(LeaveNominators(s, acc).state)
  {
    hide Solvent, LeaveNominators, Moved, Sum, Totals, Backs;
    LeaveNominatorsAllOrNothing(s, acc);
  }

  /** Every clean call keeps the books sound and the ledger in step with them. */
  lemma DispatchSolvent(s: State, who: AccountId, call: Call)
    requires Solvent(s) && CleanCall(s, who, call)
    ensures Solvent(Dispatch(s, who, call).state)
  {
    hide Solvent, Merges, SetStakingExpectations, SetInflation, JoinCandidates, LeaveCandidates, GoOffline, GoOnline,
      CandidateBondMore, CandidateBondLess, JoinNominators, LeaveNominators, NominateNew, SwitchNomination,
      RevokeNomination, NominatorBondMore, NominatorBondLess;
    match call
    case CallSetStakingExpectations(e) => GovernanceSolvent(s, e, Range(0, 0, 0));
    case CallSetInflation(r) => GovernanceSolvent(s, Range(0, 0, 0), r);
    case CallJoinCandidates(fee, bond) => JoinCandidatesSolvent(s, who, fee, bond);
    case CallLeaveCandidates => StatusCallsSolvent(s, who);
    case CallGoOffline => StatusCallsSolvent(s, who);
    case CallGoOnline => StatusCallsSolvent(s, who);
    case CallCandidateBondMore(more) => CandidateBondMoreSolvent(s, who, more);
    case CallCandidateBondLess(less) => CandidateBondLessSolvent(s, who, less);
    case CallJoinNominators(v, amount) => JoinNominatorsSolvent(s, who, v, amount);
    case CallLeaveNominators => LeaveNominatorsSolvent(s, who);
    case CallNominateNew(v, amount) => NominateNewSolvent(s, who, v, amount);
    case CallSwitchNomination(from, to) => SwitchNominationSolvent(s, who, from, to);
    case CallRevokeNomination(v) => RevokeNominationSolvent(s, who, v);
    case CallNominatorBondMore(v, more) => NominatorBondMoreSolvent(s, who, v, more);
    case CallNominatorBondLess(v, less) => NominatorBondLessSolvent(s, who, v, less);
  }

  // The end of a round.

  lemma NewRoundSolvent(s: State, chosen: set<AccountId>)
    requires Solvent(s) && Selectable(s, chosen)
    ensures Solvent(NewRound(s, chosen)) && Solvent(BeforeSelection(s))
  {
    hide Solvent, PayStakers, ExecuteDelayedExits;
    PayStakersSolvent(s, s.round + 1);
    ExecuteDelayedExitsSolvent(PayStakers(s, s.round + 1), s.round + 1);
    hide BeforeSelection;
    SolventParts(BeforeSelection(s), NewRound(s, chosen));
  }

  lemma CandidateSnapshotSound(s: State, v: AccountId)
    requires Solvent(s) && v in s.candidates
    ensures SnapshotSound(SnapshotOf(s.candidates[v]))
  {
    hide Mirror, Floors, Roles, Covered;
    BackersPositive(s.candidates, s.nominators, v);
    SoundBounds(s.candidates, s.nominators);
  }

  lemma MovedSound(atStake: StakeMap, atStake': StakeMap, next: nat, taken: Exposures)
    requires SnapshotsSound(atStake) && SnapshotsMoved(atStake, atStake', next, taken)
    requires forall v :: v in taken ==> SnapshotSound(taken[v])
    ensures SnapshotsSound(atStake')
  {
    hide SnapshotSound, ExposuresOf;
    forall r: nat, v | v in ExposuresOf(atStake', r) ensures SnapshotSound(ExposuresOf(atStake', r)[v]) {
      assert (r == next && v in taken) || v in ExposuresOf(atStake, r);
    }
  }

  lemma NewRoundSnapshotsSound(s: State, chosen: set<AccountId>)
    requires Solvent(s) && Selectable(s, chosen) && SnapshotsSound(s.atStake)
    ensures SnapshotsSound(NewRound(s, chosen).atStake)
  {
    hide Solvent, Selectable, SnapshotSound, NewRound, SnapshotsSound, SnapshotsMoved;
    var s' := NewRound(s, chosen);
    NewRoundSolvent(s, chosen);
    NewRoundEffect(s, chosen);
    var taken := SnapshotsOf(s'.candidates, chosen);
    forall v | v in taken ensures SnapshotSound(taken[v]) {
      CandidateSnapshotSound(s', v);
    }
    MovedSound(s.atStake, s'.atStake, s.round + 1, taken);
  }

  // Runs.

  lemma {:induction false} JoinAllSolvent(s: State, stakers: seq<Staker>)
    requires Solvent(s) && JoinAll(s, stakers).Some?
    ensures Solvent(JoinAll(s, stakers).value)
    decreases |stakers|
  {
    hide Solvent, JoinAtGenesis;
    if stakers != [] {
      JoinAtGenesisSolvent(s, stakers[0]);
      JoinAllSolvent(JoinAtGenesis(s, stakers[0]), stakers[1..]);
    }
  }

  lemma JoinAtGenesisSolvent(s: State, x: Staker)
    requires Solvent(s)
    ensures Solvent(JoinAtGenesis(s, x))
  {
    hide Solvent, JoinNominators, JoinCandidates;
    match x.nominated
    case Some(v) => JoinNominatorsSolvent(s, x.actor, v, x.balance);
    case None => JoinCandidatesSolvent(s, x.actor, 0, x.balance);
  }

  lemma EmptySolvent(g: Genesis)
    requires g.ledger.held == map[]
    ensures Solvent(Empty(g))
  {
    assert Totals(map[]) == map[];
  }

  lemma StartClean(g: Genesis)
    requires GenesisAccepted(g)
    ensures CleanKept(Start(g))
  {
    hide Solvent, JoinAll, BestChoice, SnapshotSound;
    EmptySolvent(g);
    JoinAllSolvent(Empty(g), g.stakers);
    var s := JoinAll(Empty(g), g.stakers).value;
    SolventParts(s, GenesisStake(g));
    assert Indexed(Empty(g));
    JoinAllKeeps(Empty(g), g.stakers);
    assert s.atStake == map[];
    forall r: nat, v | v in ExposuresOf(GenesisStake(g).atStake, r)
      ensures SnapshotSound(ExposuresOf(GenesisStake(g).atStake, r)[v])
    {
      assert r == 1 && v in g.chosen;
      CandidateSnapshotSound(s, v);
    }
  }

  lemma TransactClean(c: Chain, who: AccountId, call: Call)
    requires Kept(c) && CleanKept(c) && c.open && Clean(c, Transact(who, call))
    ensures CleanKept(Next(c, Transact(who, call)))
  {
    hide Indexed, RoundsKept, Clock, Solvent, SnapshotsSound, Dispatch, Merges;
    DispatchSolvent(c.stake, who, call);
    DispatchIndexed(c.stake, who, call);
  }

  lemma OthersClean(c: Chain, l: Ledger)
    requires CleanKept(c) && OthersActed(c.stake.ledger, l)
    ensures CleanKept(Next(c, Others(l)))
  {
    hide Sound, SnapshotsSound, Owed, Sum, Totals;
  }

  lemma FinalizeClean(c: Chain, chosen: set<AccountId>)
    requires CleanKept(c) && Enabled(c, Finalize(chosen))
    ensures CleanKept(Next(c, Finalize(chosen)))
  {
    hide Solvent, SnapshotsSound, NewRound, Selectable;
    if c.block % cfg.blocksPerRound == 0 {
      NewRoundSolvent(c.stake, chosen);
      NewRoundSnapshotsSound(c.stake, chosen);
    } else {
      assert OnFinalize(c.stake, c.block, chosen) == c.stake;
    }
  }

  lemma SetAuthorClean(c: Chain, e: Event)
    requires CleanKept(c) && e.SetAuthor? && Enabled(c, e)
    ensures CleanKept(Next(c, e))
  {
    hide Solvent, SnapshotsSound, MayAuthor;
    if AuthorAccepted(c, e.author, e.random, e.relay) {
      var s' := NoteAuthor(c.stake, e.author);
      assert s' == c.stake.(awarded := s'.awarded, points := s'.points);
      hide NoteAuthor;
      SolventParts(c.stake, s');
    } else {
      assert Next(c, e) == c;
    }
  }

  lemma StepClean(c: Chain, e: Event)
    requires Kept(c) && CleanKept(c) && Enabled(c, e) && Clean(c, e)
    ensures CleanKept(Next(c, e))
  {
    match e
    case Initialize => hide Solvent, SnapshotsSound, Kept;
    case SetAuthor(_, _, _) => hide CleanKept, Next, Kept; SetAuthorClean(c, e);
    case Transact(who, call) => hide CleanKept, Next, Kept; TransactClean(c, who, call);
    case SetEligible(ratio) => hide Solvent, SnapshotsSound, Kept;
    case Others(l) => hide CleanKept, Next, Kept; OthersClean(c, l);
    case Finalize(chosen) => hide CleanKept, Next, Kept; FinalizeClean(c, chosen);
  }

  /** Every state of every clean run is solvent, and so is every snapshot it stores. */
  lemma {:induction false} AlwaysClean(r: Run, i: nat)
    requires IsRun(r) && i <= |r.events| && CleanUntil(r, i)
    ensures CleanKept(At(r, i))
    decreases i
  {
    hide Kept, CleanKept, Enabled, Next, Start, GenesisAccepted, Clean;
    PrefixIsRun(r, i);
    if i == 0 {
      StartClean(r.genesis);
    } else {
      AlwaysClean(r, i - 1);
      AlwaysKept(r, i - 1);
      StepAt(r, i - 1);
      StepClean(At(r, i - 1), r.events[i - 1]);
    }
  }

  /** On every run all states are solvent exactly when the run is clean: the first accepted switch
      that merges is also the first step to break the books. */
  lemma SolventExactlyWhenClean(r: Run)
    requires IsRun(r)
    ensures (forall i: nat :: i <= |r.events| ==> Solvent(At(r, i).stake)) <==> CleanUntil(r, |r.events|)
  {
    hide Kept, Solvent, SnapshotsSound, Enabled, Next, Clean;
    if CleanUntil(r, |r.events|) {
      forall i: nat | i <= |r.events| ensures Solvent(At(r, i).stake) {
        AlwaysClean(r, i);
      }
    }
    if forall i: nat :: i <= |r.events| ==> Solvent(At(r, i).stake) {
      forall k: nat | k < |r.events| ensures Clean(At(r, k), r.events[k]) {
        StepAt(r, k);
        assert Solvent(At(r, k).stake) && Solvent(At(r, k + 1).stake);
        SolventStepIsClean(At(r, k), r.events[k]);
      }
    }
  }

  lemma SolventStepIsClean(c: Chain, e: Event)
    requires Enabled(c, e) && Solvent(c.stake) && Solvent(Next(c, e).stake)
    ensures Clean(c, e)
  {
    hide Solvent, SwitchNomination, Merges;
    if e.Transact? && e.call.CallSwitchNomination? && SwitchNomination(c.stake, e.who, e.call.from, e.call.to).result.Ok? {
      SwitchSolventExactly(c.stake, e.who, e.call.from, e.call.to);
    }
  }
}
