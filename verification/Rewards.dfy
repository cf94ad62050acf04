/** Who is rewarded, for what, and how much: theorems about whole runs that span the author draw, the
    author inherent and the staking pallet. */
module Rewards {
  import opened Primitives
  import opened Sums
  import opened Currency
  import opened Inflation
  import opened AuthorDraw
  import opened StakeSpec
  import opened Solvency
  import opened Payout
  import opened Indexes
  import opened Rounds
  import opened Chain
  import opened EveryRun
  import opened ExitSchedule
  import opened CleanRuns
  import opened Conservation

  // Points.

  /** On every run: an unpaid round's points are the sum of what was awarded in it; every completed
      round has exactly 20 points for each of its blocks, because each finalized block sets exactly
      one author; later rounds have none. */
  lemma PointsAreAccounted(r: Run, i: nat, round: nat)
    requires IsRun(r) && i <= |r.events|
    ensures var s := At(r, i).stake;
      && (Unpaid(round, s.round) ==> PointsOf(s.points, round) == Sum(AwardsOf(s.awarded, round)))
      && (1 <= round < s.round ==> PointsOf(s.points, round) == 20 * cfg.blocksPerRound)
      && (s.round < round ==> PointsOf(s.points, round) == 0)
  {
    hide Indexed, Clock, AwardsUnpaid, ValidatorsExposed, AwardsExposed;
    AlwaysKept(r, i);
  }

  /** Once the transition that pays `round` has happened, there are no awards for `round` any more, in
      any later state, and no later transition pays for it. So nobody is paid twice for a round. */
  lemma NobodyIsPaidTwice(r: Run, i: nat, k: nat, round: nat)
    requires IsRun(r) && i < k <= |r.events| && EntersRound(At(r, i), r.events[i])
    requires At(r, i).stake.round + 1 == round + cfg.bondDuration
    ensures AwardsOf(At(r, k).stake.awarded, round) == map[]
    ensures At(r, k).stake.round + 1 > round + cfg.bondDuration
  {
    hide Indexed, Clock, PointsMatch, RoundsFull, ValidatorsExposed, AwardsExposed, Next, Enabled, EntersRound;
    AlwaysKept(r, i);
    AlwaysKept(r, k);
    StepAt(r, i);
    StepExits(At(r, i), r.events[i]);
    RoundsOnlyGrow(r, i + 1, k);
    assert round !in At(r, k).stake.awarded;
  }

  // The start of a round.

  /** After `i` events, round `round` has just been set up. */
  ghost predicate SetsUp(r: Run, i: nat, round: nat)
    requires IsRun(r) && i <= |r.events|
  {
    At(r, i).stake.round == round && (i == 0 || At(r, i - 1).stake.round != round)
  }

  /** Every round reached was set up at some point of the run. */
  lemma {:induction false} RoundWasSetUp(r: Run, j: nat, round: nat) returns (i: nat)
    requires IsRun(r) && j <= |r.events| && 1 <= round <= At(r, j).stake.round
    ensures i <= j && SetsUp(r, i, round)
    decreases j
  {
    hide Kept, Next, Enabled, EntersRound, Start, GenesisAccepted;
    PrefixIsRun(r, j);
    if j == 0 {
      StartRound(r.genesis);
      i := 0;
    } else {
      AlwaysKept(r, j - 1);
      StepAt(r, j - 1);
      StepExits(At(r, j - 1), r.events[j - 1]);
      if round <= At(r, j - 1).stake.round {
        i := RoundWasSetUp(r, j - 1, round);
      } else {
        i := j;
      }
    }
  }

  lemma StartRound(g: Genesis)
    requires GenesisAccepted(g)
    ensures Start(g).stake.round == 1
  {
  }

  /** Each validator of the round has a snapshot stored that is a copy of its record in `c`. */
  ghost predicate SnapshotsTaken(s: State, c: Candidates, validators: seq<AccountId>, round: nat) {
    forall v :: v in validators ==>
      v in c && v in ExposuresOf(s.atStake, round) && Copies(ExposuresOf(s.atStake, round)[v], c[v])
  }

  lemma NewRoundTakes(s: State, chosen: set<AccountId>)
    requires Selectable(s, chosen)
    ensures var s' := NewRound(s, chosen); SnapshotsTaken(s', s'.candidates, s'.validators, s'.round)
  {
    hide NewRound, Selectable;
    NewRoundEffect(s, chosen);
    var s' := NewRound(s, chosen);
    forall v | v in s'.validators
      ensures v in s'.candidates && v in ExposuresOf(s'.atStake, s'.round)
      ensures Copies(ExposuresOf(s'.atStake, s'.round)[v], s'.candidates[v])
    {
      assert v in chosen;
      assert v in SnapshotsOf(s'.candidates, chosen);
    }
  }

  lemma StartTakes(g: Genesis)
    requires GenesisAccepted(g)
    ensures var s := Start(g).stake; SnapshotsTaken(s, s.candidates, s.validators, s.round)
  {
    hide JoinAll, BestChoice;
    var s0, s := JoinAll(Empty(g), g.stakers).value, Start(g).stake;
    forall v | v in s.validators
      ensures v in s.candidates && v in ExposuresOf(s.atStake, 1) && Copies(ExposuresOf(s.atStake, 1)[v], s.candidates[v])
    {
      assert v in g.chosen;
    }
  }

  lemma SetUpTakes(r: Run, i: nat, round: nat)
    requires IsRun(r) && i <= |r.events| && SetsUp(r, i, round)
    ensures SnapshotsTaken(At(r, i).stake, At(r, i).stake.candidates, At(r, i).stake.validators, round)
  {
    hide Kept, Start, GenesisAccepted, Selectable, NewRound, SnapshotsTaken;
    PrefixIsRun(r, i);
    if i == 0 {
      StartTakes(r.genesis);
    } else {
      AlwaysKept(r, i - 1);
      StepAt(r, i - 1);
      StepExits(At(r, i - 1), r.events[i - 1]);
      EntersByNewRound(At(r, i - 1), r.events[i - 1]);
    }
  }

  lemma EntersByNewRound(c: Chain, e: Event)
    requires Enabled(c, e) && EntersRound(c, e)
    ensures var s' := Next(c, e).stake; SnapshotsTaken(s', s'.candidates, s'.validators, s'.round)
  {
    hide Selectable, NewRound, SnapshotsTaken;
    NewRoundTakes(c.stake, e.chosen);
  }

  // The stake of a round.

  lemma RoundsStartAtOne(r: Run, i: nat)
    requires IsRun(r) && i <= |r.events|
    ensures 1 <= At(r, i).stake.round
  {
    hide Indexed, Clock, AwardsUnpaid, PointsMatch, RoundsFull, ValidatorsExposed, AwardsExposed;
    AlwaysKept(r, i);
  }

  lemma StartStaked(g: Genesis)
    requires GenesisAccepted(g)
    ensures Staked(Start(g).stake, 1) == Start(g).stake.total
  {
    hide JoinAll, BestChoice;
  }

  lemma NewRoundStaked(s: State, chosen: set<AccountId>)
    requires Selectable(s, chosen)
    ensures var s' := NewRound(s, chosen);
      && Staked(s', s.round + 1) == s'.total
      && forall round: nat :: round <= s.round ==> Staked(s', round) == Staked(s, round)
  {
    hide BeforeSelection, DueExits, BestChoice;
    BeforeSelectionFrame(s);
  }

  lemma StepStaked(c: Chain, e: Event, round: nat)
    requires Kept(c) && Enabled(c, e) && round <= c.stake.round
    ensures Staked(Next(c, e).stake, round) == Staked(c.stake, round)
  {
    hide Kept, Selectable, NewRound, Dispatch, MayAuthor, OthersActed;
    match e
    case Transact(who, call) => TransactRounds(c, who, call);
    case Finalize(chosen) =>
      if EntersRound(c, e) {
        NewRoundStaked(c.stake, chosen);
      }
    case SetAuthor(a, random, relay) =>
    case Initialize =>
    case SetEligible(_) =>
    case Others(_) =>
  }

  /** From the moment a round is set up, what is stored as its stake is the total locked of that
      moment, on every run. */
  lemma {:induction false} StakeOfRound(r: Run, i: nat, j: nat, round: nat)
    requires IsRun(r) && i <= j <= |r.events| && SetsUp(r, i, round)
    ensures Staked(At(r, j).stake, round) == At(r, i).stake.total
    decreases j - i
  {
    hide Kept, Next, Enabled, EntersRound, Start, GenesisAccepted, NewRound, Selectable;
    if i < j {
      StakeOfRound(r, i, j - 1, round);
      RoundsOnlyGrow(r, i, j - 1);
      AlwaysKept(r, j - 1);
      StepAt(r, j - 1);
      StepStaked(At(r, j - 1), r.events[j - 1], round);
    } else if i == 0 {
      PrefixIsRun(r, 0);
      StartRound(r.genesis);
      StartStaked(r.genesis);
    } else {
      AlwaysKept(r, i - 1);
      StepAt(r, i - 1);
      StepExits(At(r, i - 1), r.events[i - 1]);
      EntryStaked(At(r, i - 1), r.events[i - 1]);
    }
  }

  lemma EntryStaked(c: Chain, e: Event)
    requires Enabled(c, e) && EntersRound(c, e)
    ensures Staked(Next(c, e).stake, c.stake.round + 1) == Next(c, e).stake.total
  {
    hide Selectable, NewRound;
    NewRoundStaked(c.stake, e.chosen);
  }

  // Snapshots.

  /** What one step does to the snapshots of an unpaid round and to the awards and validators. */
  ghost predicate StoresKept(s: State, s': State, round: nat) {
    && (forall v :: v in ExposuresOf(s.atStake, round) ==>
          v in ExposuresOf(s'.atStake, round) && ExposuresOf(s'.atStake, round)[v] == ExposuresOf(s.atStake, round)[v])
    && (s'.round == s.round ==> s'.validators == s.validators)
    && (s.round != round || s'.round != round ==> forall v :: v in AwardsOf(s'.awarded, round) ==> v in AwardsOf(s.awarded, round))
  }

  lemma SameStores(s: State, s': State, round: nat)
    requires SameRounds(s, s')
    ensures StoresKept(s, s', round)
  {
  }

  lemma NewRoundStores(s: State, chosen: set<AccountId>, round: nat)
    requires Selectable(s, chosen) && round <= s.round && s.round + 1 < round + cfg.bondDuration
    ensures StoresKept(s, NewRound(s, chosen), round)
  {
    hide Selectable, NewRound;
    NewRoundEffect(s, chosen);
  }

  lemma NotedStores(s: State, a: AccountId, round: nat)
    ensures StoresKept(s, NoteAuthor(s, a), round)
  {
  }

  lemma StepStores(c: Chain, e: Event, round: nat)
    requires Kept(c) && Enabled(c, e)
    requires round <= c.stake.round && Next(c, e).stake.round < round + cfg.bondDuration
    ensures StoresKept(c.stake, Next(c, e).stake, round)
  {
    hide Kept, StoresKept, Selectable, NewRound, Dispatch, MayAuthor, OthersActed, SameRounds;
    match e
    case Transact(who, call) =>
      TransactRounds(c, who, call);
      SameStores(c.stake, Dispatch(c.stake, who, call).state, round);
    case Finalize(chosen) =>
      if EntersRound(c, e) {
        StepExits(c, e);
        NewRoundStores(c.stake, chosen, round);
      } else {
        Same(c.stake, c.stake, round);
      }
    case SetAuthor(a, random, relay) =>
      if AuthorAccepted(c, a, random, relay) {
        NotedStores(c.stake, a, round);
      } else {
        Same(c.stake, c.stake, round);
      }
    case Initialize => Same(c.stake, c.stake, round);
    case SetEligible(_) => Same(c.stake, c.stake, round);
    case Others(l) => Same(c.stake, c.stake.(ledger := l), round);
  }

  lemma Same(s: State, s': State, round: nat)
    requires s' == s.(ledger := s'.ledger)
    ensures StoresKept(s, s', round)
  {
  }

  /** Snapshot isolation, on every run: as long as a round is unpaid, the fee, the bond, the nominators
      and the total stored for each of its validators are those of the validator's record when the
      round was set up, whatever has happened to the record since; and whoever has an award for the
      round was then chosen for it. */
  lemma {:induction false} SnapshotIsolation(r: Run, i: nat, j: nat, round: nat)
    requires IsRun(r) && i <= j <= |r.events| && SetsUp(r, i, round)
    requires At(r, j).stake.round < round + cfg.bondDuration
    ensures SnapshotsTaken(At(r, j).stake, At(r, i).stake.candidates, At(r, i).stake.validators, round)
    ensures forall v :: v in AwardsOf(At(r, j).stake.awarded, round) ==> v in At(r, i).stake.validators
    ensures At(r, j).stake.round == round ==> At(r, j).stake.validators == At(r, i).stake.validators
    decreases j - i
  {
    hide Indexed, Clock, AwardsUnpaid, PointsMatch, RoundsFull, ValidatorsExposed, Next, Enabled, EntersRound;
    if i == j {
      SetUpTakes(r, i, round);
      AlwaysKept(r, i);
    } else {
      RoundsOnlyGrow(r, i, j - 1);
      RoundsOnlyGrow(r, j - 1, j);
      SnapshotIsolation(r, i, j - 1, round);
      AlwaysKept(r, j - 1);
      AlwaysKept(r, j);
      StepAt(r, j - 1);
      StepStores(At(r, j - 1), r.events[j - 1], round);
    }
  }

  /** Across the three pallets, on every run: each account that a transition pays as an author was in
      the validator set of the round paid, and is paid by the snapshot of its record taken when that
      round was set up, never by the default of a missing one. */
  lemma PayeesWereChosen(r: Run, j: nat, round: nat, v: AccountId) returns (i: nat)
    requires IsRun(r) && j < |r.events| && EntersRound(At(r, j), r.events[j])
    requires 1 <= round && At(r, j).stake.round + 1 == round + cfg.bondDuration
    requires v in AwardsOf(At(r, j).stake.awarded, round)
    ensures i <= j && SetsUp(r, i, round)
    ensures v in At(r, i).stake.validators && v in At(r, i).stake.candidates
    ensures v in ExposuresOf(At(r, j).stake.atStake, round)
    ensures var x, c := Exposure(ExposuresOf(At(r, j).stake.atStake, round), v), At(r, i).stake.candidates[v];
      x.fee == c.fee && x.bond == c.bond && x.nominators == c.nominators && x.total == c.total
  {
    i := RoundWasSetUp(r, j, round);
    SnapshotIsolation(r, i, j, round);
  }

  // The payout.

  /** From `s` to `s'` at most `issuance` is minted, and half a unit for every share that the payment
      of `round` rounds. */
  ghost predicate MintedWithin(s: State, s': State, round: nat, issuance: int) {
    var payees := Payees(AwardsOf(s.awarded, round), PointsOf(s.points, round), issuance);
    2 * (s'.ledger.issuance - s.ledger.issuance) <= 2 * issuance + Sum(RoundedShares(ExposuresOf(s.atStake, round), payees))
  }

  /** On every clean run, the transition that pays a round mints at most that round's issuance, which
      follows from the total locked when the round was set up, and half a unit for every share that it
      rounds: one for each author paid and, where there are nominators, one for the validator's part
      and one for each nominator. */
  lemma MintingBound(r: Run, i: nat, j: nat, round: nat, issuance: int)
    requires IsRun(r) && i <= j < |r.events| && CleanUntil(r, j)
    requires EntersRound(At(r, j), r.events[j])
    requires SetsUp(r, i, round) && At(r, j).stake.round + 1 == round + cfg.bondDuration
    requires var s := At(r, j).stake; IsIssuance(s.inflation, s.ledger.issuance, At(r, i).stake.total, issuance)
    ensures MintedWithin(At(r, j).stake, At(r, j + 1).stake, round, issuance)
  {
    hide Next, EntersRound, Selectable, Kept, CleanKept, MintedWithin, IsIssuance, ComputeIssuance;
    RoundsStartAtOne(r, i);
    StakeOfRound(r, i, j, round);
    var s := At(r, j).stake;
    IssuanceByStake(s.inflation, s.ledger.issuance, Staked(s, round), issuance);
    AlwaysKept(r, j);
    AlwaysClean(r, j);
    StepAt(r, j);
    EntryMintsWithin(At(r, j), r.events[j], round);
  }

  lemma EntryMintsWithin(c: Chain, e: Event, round: nat)
    requires Kept(c) && CleanKept(c) && Enabled(c, e) && EntersRound(c, e)
    requires c.stake.round + 1 == round + cfg.bondDuration && 1 <= round
    ensures MintedWithin(c.stake, Next(c, e).stake, round, RoundIssuance(c.stake, c.stake.round + 1))
  {
    hide Next, Enabled, EntersRound, Kept, CleanKept, Mintage, Sum, RoundedShares, Payees, RoundIssuance;
    EntryMints(c, e);
    MintageBound(c);
  }

  lemma EntryMints(c: Chain, e: Event)
    requires Enabled(c, e) && EntersRound(c, e)
    ensures Next(c, e).stake.ledger.issuance == c.stake.ledger.issuance + Mintage(c.stake)
  {
    hide Selectable, NewRound, Mintage;
    NewRoundConserves(c.stake, e.chosen);
  }

  lemma MintageBound(c: Chain)
    requires Kept(c) && CleanKept(c) && c.stake.round + 1 > cfg.bondDuration
    ensures var s := c.stake;
      var round := s.round + 1 - cfg.bondDuration;
      var awards, issuance := AwardsOf(s.awarded, round), RoundIssuance(s, s.round + 1);
      2 * Mintage(s) <= 2 * issuance
        + Sum(RoundedShares(ExposuresOf(s.atStake, round), Payees(awards, PointsOf(s.points, round), issuance)))
  {
    hide Indexed, Clock, AwardsUnpaid, RoundsFull, ValidatorsExposed, Solvent, Sum, SnapshotSound, TotalMinted, RoundedShares, ComputeIssuance;
    var s := c.stake;
    var round: nat := s.round + 1 - cfg.bondDuration;
    var awards, issuance := AwardsOf(s.awarded, round), RoundIssuance(s, s.round + 1);
    assert Unpaid(round, s.round);
    var payees := Payees(awards, PointsOf(s.points, round), issuance);
    forall v | v in payees ensures SnapshotSound(Exposure(ExposuresOf(s.atStake, round), v)) {
      assert v in AwardsOf(s.awarded, round);
    }
    hide Payees, AwardsExposed, SnapshotsSound, PointsMatch;
    PayoutBound(s.ledger, ExposuresOf(s.atStake, round), awards, PointsOf(s.points, round), issuance, payees);
  }
}
