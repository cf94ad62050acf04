/** The theorems about whole runs that come from the invariants of every step. */
module Guarantees {
  import opened Primitives
  import opened Sums
  import opened Ascending
  import opened Currency
  import opened StakeSpec
  import opened Books
  import opened Solvency
  import opened Departures
  import opened Outcomes
  import opened Selection
  import opened Indexes
  import opened Rounds
  import opened Chain
  import opened EveryRun
  import opened CleanRuns
  import opened Conservation
  import opened ExitSchedule

  ghost predicate Entry(m: map<AccountId, int>, k: AccountId, x: int) {
    k in m && m[k] == x
  }

  /** Candidate `v`'s record holds the bond (n, a). */
  ghost predicate CandidateHolds(c: Candidates, v: AccountId, n: AccountId, a: int) {
    v in c && Entry(c[v].nominators, n, a)
  }

  /** Nominator `n`'s record holds the bond (v, a). */
  ghost predicate NominatorHolds(ns: Nominators, n: AccountId, v: AccountId, a: int) {
    n in ns && Entry(ns[n].nominations, v, a)
  }

  /** On every run, clean or not: (v, t) is in the pool exactly when candidate v is active with total
      t; (v, w) is in the exit queue exactly when candidate v is leaving in round w, which is ahead by
      at most the bond duration. */
  lemma PoolAndExitQueueExact(r: Run, i: nat)
    requires IsRun(r) && i <= |r.events|
    ensures var s := At(r, i).stake;
      && (forall v, t :: Entry(s.pool, v, t)
            <==> (v in s.candidates && s.candidates[v].status == Active && s.candidates[v].total == t))
      && (forall v, w :: Entry(s.exits, v, w) <==> (v in s.candidates && s.candidates[v].status == Leaving(w)))
      && (forall v :: v in s.exits ==> s.round < s.exits[v] <= s.round + cfg.bondDuration)
  {
    hide RoundsKept, Clock;
    AlwaysKept(r, i);
  }

  /** On every run the validator set is a strictly sorted vector, so binary search decides membership
      in it, and each member has a snapshot stored for the round. */
  lemma ValidatorSetIsSearchable(r: Run, i: nat)
    requires IsRun(r) && i <= |r.events|
    ensures var s := At(r, i).stake;
      Increasing(s.validators) && forall v :: v in s.validators ==> v in ExposuresOf(s.atStake, s.round)
  {
    hide Indexed, Clock, AwardsUnpaid, PointsMatch, RoundsFull, AwardsExposed;
    AlwaysKept(r, i);
  }

  /** On every run, the branches that a stale index would take are never taken: the pool never has
      an entry that joining or going online would collide with, nor the queue one that leaving would;
      and going offline always has an entry to remove. */
  lemma IndexesNeverCollide(r: Run, i: nat, v: AccountId)
    requires IsRun(r) && i <= |r.events|
    ensures var s := At(r, i).stake;
      && (v !in s.candidates ==> v !in s.pool && v !in s.exits)
      && (v in s.candidates && s.candidates[v].status.Idle? ==> v !in s.pool && GoOnline(s, v).result.Ok?)
      && (v in s.candidates && s.candidates[v].status.Active? ==> v in s.pool && GoOffline(s, v).result.Ok?)
      && (v in s.candidates && !s.candidates[v].status.Leaving? ==> v !in s.exits && LeaveCandidates(s, v).result.Ok?)
  {
    hide RoundsKept, Clock;
    AlwaysKept(r, i);
  }

  /** On every run the selection finds every member of the pool among the candidates. */
  lemma SelectionFindsCandidates(r: Run, i: nat, chosen: set<AccountId>)
    requires IsRun(r) && i <= |r.events|
    requires BestChoice(BeforeSelection(At(r, i).stake).pool, chosen)
    ensures Selectable(At(r, i).stake, chosen)
  {
    hide RoundsKept, Clock, Indexed, BeforeSelection, BestChoice;
    AlwaysKept(r, i);
    SelectionNeverPanics(At(r, i).stake, chosen);
  }

  /** On every run a block that has an author can be finalized, whatever the run did: its
      selection never fails to find a candidate. Without an author it cannot. Whether the transition's
      subtractions from the total locked stay non-negative is another matter (`TotalLocked`). */
  lemma OnlyAMissingAuthorStopsABlock(r: Run, i: nat)
    requires IsRun(r) && i <= |r.events| && At(r, i).open
    ensures (exists chosen :: Enabled(At(r, i), Finalize(chosen))) <==> At(r, i).author.Some?
  {
    var c := At(r, i);
    BestChoiceExists(BeforeSelection(c.stake).pool);
    var chosen :| BestChoice(BeforeSelection(c.stake).pool, chosen);
    SelectionFindsCandidates(r, i, chosen);
    hide BestChoice, BeforeSelection, Selectable;
    assert c.author.Some? ==> Enabled(c, Finalize(chosen));
  }

  /** On every clean run nominator n's record holds bond (v, a) exactly when candidate v's holds
      (n, a); totals add up; bonds and nominations are at or above their floors, no nominator is
      above its cap; nobody has both roles. */
  lemma RecordsMirror(r: Run, i: nat)
    requires IsRun(r) && i <= |r.events| && CleanUntil(r, i)
    ensures var c, ns := At(r, i).stake.candidates, At(r, i).stake.nominators;
      && (forall v, n, a :: CandidateHolds(c, v, n, a) <==> NominatorHolds(ns, n, v, a))
      && LocalSums(c, ns) && Floors(c, ns) && Roles(c, ns)
  {
    hide LocalSums, Floors, Roles, Covered, SnapshotsSound;
    AlwaysClean(r, i);
    var c, ns := At(r, i).stake.candidates, At(r, i).stake.nominators;
    forall v, n, a ensures CandidateHolds(c, v, n, a) <==> NominatorHolds(ns, n, v, a) {
      assert Backs(c, v, n) <==> Nominates(ns, n, v);
    }
  }

  /** On every clean run what the pallet has reserved for an account is its candidate bond or its
      nominator total, is still reserved, and sums to the sum of the candidates' totals. */
  lemma ReservesMatch(r: Run, i: nat)
    requires IsRun(r) && i <= |r.events| && CleanUntil(r, i)
    ensures var s := At(r, i).stake;
      && (forall a :: Held(s.ledger, a) == if a in s.candidates then s.candidates[a].bond
                                           else if a in s.nominators then s.nominators[a].total else 0)
      && (forall a :: a in s.candidates ==> a !in s.nominators)
      && (forall a :: Held(s.ledger, a) <= Reserved(s.ledger, a))
      && Sum(s.ledger.held) == Sum(Totals(s.candidates))
  {
    hide Mirror, LocalSums, Floors, SnapshotsSound, Sum, Totals;
    AlwaysClean(r, i);
  }

  /** What is owed to each account changes by as much as its reserve, in the other direction. */
  ghost predicate ReservesFollow(s: State, s': State) {
    forall a :: Reserved(s'.ledger, a) - Reserved(s.ledger, a)
                == Owed(s'.candidates, s'.nominators, a) - Owed(s.candidates, s.nominators, a)
  }

  lemma SolventConserved(s: State, s': State)
    requires Solvent(s) && Solvent(s')
    requires forall a :: Reserved(s'.ledger, a) - Held(s'.ledger, a) == Reserved(s.ledger, a) - Held(s.ledger, a)
    ensures ReservesFollow(s, s')
  {
    hide Sound, Sum, Totals, Owed, Reserved, Held;
    forall a ensures Reserved(s'.ledger, a) - Reserved(s.ledger, a)
                == Owed(s'.candidates, s'.nominators, a) - Owed(s.candidates, s.nominators, a) {
      assert Held(s.ledger, a) == Owed(s.candidates, s.nominators, a);
      assert Held(s'.ledger, a) == Owed(s'.candidates, s'.nominators, a);
    }
  }

  lemma StepReleases(c: Chain, e: Event)
    requires Enabled(c, e) && (e.Transact? || EntersRound(c, e))
    requires Solvent(c.stake) && Solvent(Next(c, e).stake)
    ensures ReservesFollow(c.stake, Next(c, e).stake)
  {
    hide Solvent, Dispatch, NewRound, Selectable, ReservesFollow, Reserved, Held, Free, Reward, Mintage;
    if e.Transact? {
      DispatchConserves(c.stake, e.who, e.call);
    } else {
      NewRoundConserves(c.stake, e.chosen);
    }
    SolventConserved(c.stake, Next(c, e).stake);
  }

  /** On every clean run every call, and every transition with all its exits, changes the reserve of
      each account by exactly the change in what the books owe it: nothing recorded is left behind
      and no release falls short. */
  lemma ReleasesAreExact(r: Run, i: nat)
    requires IsRun(r) && i < |r.events| && CleanUntil(r, i + 1)
    requires r.events[i].Transact? || EntersRound(At(r, i), r.events[i])
    ensures ReservesFollow(At(r, i).stake, At(r, i + 1).stake)
  {
    hide Enabled, Next, Clean, Solvent, SnapshotsSound, ReservesFollow, EntersRound;
    AlwaysClean(r, i);
    AlwaysClean(r, i + 1);
    StepAt(r, i);
    StepReleases(At(r, i), r.events[i]);
  }

  /** Leaving the nominators fails only for an account that is none, changing nothing; it releases
      exactly the nominator's total, and both records of each of its bonds. */
  ghost predicate AllOrNothing(s: State, acc: AccountId) {
    var left := LeaveNominators(s, acc);
    && (left.result.Ok? <==> acc in s.nominators)
    && (left.result.Err? ==> left.state == s)
    && (acc in s.nominators ==>
          && left.state.nominators == s.nominators - {acc}
          && (forall v :: !Backs(left.state.candidates, v, acc))
          && Moved(s.ledger, left.state.ledger, acc, 0 - s.nominators[acc].total))
  }

  lemma SolventAllOrNothing(s: State, acc: AccountId)
    requires Solvent(s)
    ensures AllOrNothing(s, acc)
  {
    hide LeaveNominators, Solvent, Moved, Sum, Totals, Backs;
    LeaveNominatorsAllOrNothing(s, acc);
  }

  /** On every clean run leaving the nominators is all or nothing. */
  lemma LeavingIsAllOrNothing(r: Run, i: nat, acc: AccountId)
    requires IsRun(r) && i <= |r.events| && CleanUntil(r, i)
    ensures AllOrNothing(At(r, i).stake, acc)
  {
    hide Solvent, SnapshotsSound, AllOrNothing;
    AlwaysClean(r, i);
    SolventAllOrNothing(At(r, i).stake, acc);
  }

  /** On every clean run every call that fails changes nothing at all. */
  lemma FailedCallsChangeNothing(r: Run, i: nat)
    requires IsRun(r) && i < |r.events| && CleanUntil(r, i) && r.events[i].Transact?
    requires Dispatch(At(r, i).stake, r.events[i].who, r.events[i].call).result.Err?
    ensures At(r, i + 1) == At(r, i)
  {
    hide Dispatch, Solvent, SnapshotsSound;
    AlwaysClean(r, i);
    StepAt(r, i);
    ErrorsChangeNothing(At(r, i).stake, r.events[i].who, r.events[i].call);
  }

  lemma PoolNonNegative(s: State)
    requires Indexed(s) && Solvent(s)
    ensures forall v :: v in s.pool ==> 0 <= s.pool[v]
  {
    hide Mirror, Floors, Roles, Covered, ExitsIndexed;
    forall v | v in s.pool ensures 0 <= s.pool[v] {
      CandidateSnapshotSound(s, v);
      SumNonNegative(s.candidates[v].nominators);
    }
  }

  /** On every clean run, whatever order the unstable sort gives to equal stakes, a transition chooses
      as many validators as the cap and the pool allow, and no other choice that fits has a larger
      combined stake. */
  lemma ChoiceIsOptimal(r: Run, i: nat, other: set<AccountId>)
    requires IsRun(r) && i < |r.events| && CleanUntil(r, i)
    requires EntersRound(At(r, i), r.events[i])
    requires var pool := At(r, i + 1).stake.pool; other <= pool.Keys && |other| <= cfg.maxValidators
    ensures var s', chosen := At(r, i + 1).stake, r.events[i].chosen;
      && s'.validators == List(chosen) && chosen <= s'.pool.Keys
      && |chosen| == (if |s'.pool| < cfg.maxValidators then |s'.pool| else cfg.maxValidators)
      && |other| <= |chosen|
      && Stake(s'.pool, other) <= Stake(s'.pool, chosen)
  {
    hide Kept, Clean, Solvent, SnapshotsSound, BeforeSelection, Stake, SelectValidators;
    AlwaysKept(r, i);
    AlwaysClean(r, i);
    StepAt(r, i);
    ChosenFromPool(At(r, i), r.events[i]);
    TransitionPoolNonNegative(At(r, i), r.events[i]);
    hide Next, Enabled, EntersRound;
    SelectionIsOptimal(At(r, i + 1).stake.pool, r.events[i].chosen, other);
  }

  lemma ChosenFromPool(c: Chain, e: Event)
    requires Enabled(c, e) && EntersRound(c, e)
    ensures BestChoice(Next(c, e).stake.pool, e.chosen) && Next(c, e).stake.validators == List(e.chosen)
  {
    hide BeforeSelection, BestChoice;
  }

  lemma TransitionPoolNonNegative(c: Chain, e: Event)
    requires Kept(c) && CleanKept(c) && Enabled(c, e) && EntersRound(c, e)
    ensures var pool := Next(c, e).stake.pool; forall v :: v in pool ==> 0 <= pool[v]
  {
    hide RoundsKept, Clock, Indexed, Solvent, SnapshotsSound, Selectable, NewRound;
    NewRoundIndexed(c.stake, e.chosen);
    NewRoundSolvent(c.stake, e.chosen);
    PoolNonNegative(NewRound(c.stake, e.chosen));
  }
}
