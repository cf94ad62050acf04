/** What everybody earns, told from the history of a run alone: the blocks that each validator
    authored, what its record said when the round was set up, and the stake locked at that moment. */
module Earnings {
  import opened Primitives
  import opened PerThing
  import opened Sums
  import opened Currency
  import opened Inflation
  import opened AuthorDraw
  import opened StakeSpec
  import opened Indexes
  import opened Calls
  import opened Rounds
  import opened Chain
  import opened EveryRun
  import opened ExitSchedule
  import opened Conservation
  import opened Rewards
  import opened PayoutSplit

  // Blocks.

  /** Event `e` names `a` as the author of the block, and is accepted: the block has no author yet
      and `a` is among those drawn. */
  ghost predicate Authors(c: Chain, e: Event, a: AccountId) {
    e.SetAuthor? && e.author == a && c.author == None && a in Eligible(c.stake.validators, c.ratio, e.random, e.relay)
  }

  /** How many of the first `i` events made `a` the author of a block of round `round`. */
  ghost function BlocksBy(r: Run, i: nat, round: nat, a: AccountId): nat
    requires IsRun(r) && i <= |r.events|
    decreases i
  {
    if i == 0 then 0
    else BlocksBy(r, i - 1, round, a)
         + if At(r, i - 1).stake.round == round && Authors(At(r, i - 1), r.events[i - 1], a) then 1 else 0
  }

  /** Account `a` has an award for `round` exactly when it authored some of its blocks, and then twenty
      points for each. */
  ghost predicate Awarded(s: State, round: nat, a: AccountId, blocks: nat) {
    var awards := AwardsOf(s.awarded, round);
    (a in awards <==> 0 < blocks) && (a in awards ==> awards[a] == 20 * blocks)
  }

  lemma NoteAwards(s: State, author: AccountId, round: nat, a: AccountId, blocks: nat)
    requires Awarded(s, round, a, blocks)
    ensures Awarded(NoteAuthor(s, author), round, a, blocks + if round == s.round && a == author then 1 else 0)
  {
  }

  lemma NewRoundAwards(s: State, chosen: set<AccountId>, round: nat, a: AccountId, blocks: nat)
    requires Selectable(s, chosen) && Awarded(s, round, a, blocks) && s.round + 1 < round + cfg.bondDuration
    ensures Awarded(NewRound(s, chosen), round, a, blocks)
  {
    hide Selectable, NewRound;
    NewRoundEffect(s, chosen);
  }

  lemma StepAwards(c: Chain, e: Event, round: nat, a: AccountId, blocks: nat)
    requires Kept(c) && Enabled(c, e) && Awarded(c.stake, round, a, blocks)
    requires Next(c, e).stake.round < round + cfg.bondDuration
    ensures Awarded(Next(c, e).stake, round, a, blocks + if c.stake.round == round && Authors(c, e, a) then 1 else 0)
  {
    hide Kept, Selectable, NewRound, Dispatch, Eligible, OthersActed, Awarded, NoteAuthor;
    match e
    case Transact(who, call) =>
      TransactRounds(c, who, call);
      SameAwards(c.stake, Dispatch(c.stake, who, call).state, round, a, blocks);
    case Finalize(chosen) =>
      if EntersRound(c, e) {
        StepExits(c, e);
        NewRoundAwards(c.stake, chosen, round, a, blocks);
      }
    case SetAuthor(author, random, relay) =>
      if AuthorAccepted(c, author, random, relay) {
        NoteAwards(c.stake, author, round, a, blocks);
      }
    case Initialize =>
    case SetEligible(_) =>
    case Others(l) => SameAwards(c.stake, c.stake.(ledger := l), round, a, blocks);
  }

  lemma SameAwards(s: State, s': State, round: nat, a: AccountId, blocks: nat)
    requires SameRounds(s, s') && Awarded(s, round, a, blocks)
    ensures Awarded(s', round, a, blocks)
  {
  }

  lemma NoAwardsAtStart(g: Genesis, round: nat, a: AccountId)
    requires GenesisAccepted(g)
    ensures Awarded(Start(g).stake, round, a, 0)
  {
    hide JoinAll, BestChoice, Indexed, LeavingStays;
    JoinAllKeeps(Empty(g), g.stakers);
  }

  /** On every run: as long as a round is unpaid, whoever authored blocks in it, and nobody else, has
      an award for it, of twenty points for each accepted naming as the author of one of its blocks. */
  lemma {:induction false} AwardsCountBlocks(r: Run, i: nat, round: nat, a: AccountId)
    requires IsRun(r) && i <= |r.events| && At(r, i).stake.round < round + cfg.bondDuration
    ensures var awards := AwardsOf(At(r, i).stake.awarded, round);
      && (a in awards <==> 0 < BlocksBy(r, i, round, a))
      && (a in awards ==> awards[a] == 20 * BlocksBy(r, i, round, a))
    decreases i
  {
    hide Kept, Next, Enabled, EntersRound, Start, GenesisAccepted, Authors;
    if i == 0 {
      PrefixIsRun(r, 0);
      NoAwardsAtStart(r.genesis, round, a);
    } else {
      AlwaysKept(r, i - 1);
      StepAt(r, i - 1);
      RoundsOnlyGrow(r, i - 1, i);
      AwardsCountBlocks(r, i - 1, round, a);
      StepAwards(At(r, i - 1), r.events[i - 1], round, a, BlocksBy(r, i - 1, round, a));
    }
  }

  /** An event that names an author is accepted exactly when the block has none yet and the account is
      drawn; then it becomes the author and the round's points rise by twenty. Otherwise nothing
      changes. */
  lemma NamingAnAuthor(c: Chain, e: Event)
    requires Enabled(c, e) && e.SetAuthor?
    ensures var c', round := Next(c, e), c.stake.round;
      if Authors(c, e, e.author)
      then c'.author == Some(e.author) && PointsOf(c'.stake.points, round) == PointsOf(c.stake.points, round) + 20
      else c' == c
  {
    hide Eligible;
  }

  // Pay.

  /** A share of twenty points for each block is the share of the blocks. */
  lemma PortionOfBlocks(blocks: nat, all: nat, x: int, due: int)
    requires 1 <= all && IsPortion(20 * blocks, 20 * all, x, due)
    ensures IsPortion(blocks, all, x, due)
  {
    hide IsNearest;
    var p :| IsShare(20 * blocks, 20 * all, p) && IsNearest(p, x, due);
    assert p * (20 * all) == 20 * (p * all) && (p + 1) * (20 * all) == 20 * ((p + 1) * all);
    assert IsShare(blocks, all, p);
  }

  /** When the transition that pays `round` happens, all its points have been awarded. */
  lemma PointsOfPaidRound(r: Run, j: nat, round: nat)
    requires IsRun(r) && j < |r.events| && EntersRound(At(r, j), r.events[j])
    requires 1 <= round <= At(r, j).stake.round
    ensures PointsOf(At(r, j).stake.points, round) == 20 * cfg.blocksPerRound
  {
    hide Kept, Next, Enabled, EntersRound;
    PointsAreAccounted(r, j + 1, round);
    AlwaysKept(r, j);
    StepAt(r, j);
    StepExits(At(r, j), r.events[j]);
    EntryKeepsPoints(At(r, j), r.events[j]);
  }

  lemma EntryKeepsPoints(c: Chain, e: Event)
    requires Enabled(c, e) && EntersRound(c, e)
    ensures Next(c, e).stake.points == c.stake.points
  {
    hide Selectable, NewRound;
    NewRoundEffect(c.stake, e.chosen);
  }

  /** `dues` and `splits` divide `issuance` by history: whoever authored blocks of `round` is due the
      share of its blocks in those of a round, and what is due is split by what its record said after
      `i` events. */
  ghost predicate DividesRound(r: Run, i: nat, j: nat, round: nat, issuance: int,
                               dues: map<AccountId, int>, splits: map<AccountId, Split>)
    requires IsRun(r) && i <= |r.events| && j <= |r.events|
  {
    && (forall v :: v in dues <==> 0 < BlocksBy(r, j, round, v))
    && (forall v :: v in dues ==> IsPortion(BlocksBy(r, j, round, v), cfg.blocksPerRound, issuance, dues[v]))
    && (forall v :: v in splits <==> v in dues && dues[v] > cfg.existentialDeposit)
    && (forall v :: v in splits ==> v in At(r, i).stake.candidates && SplitByRecord(At(r, i).stake.candidates[v], dues[v], splits[v]))
  }

  ghost predicate SplitByRecord(c: Candidate, due: int, y: Split) {
    IsSplit(Snapshot(c.fee, c.bond, c.nominators, c.total), due, y)
  }

  /** From `l` to `l'` what each account owns, free or reserved, rises by what it gains, and the
      issuance by what all accounts gain. */
  ghost predicate Earned(l: Ledger, l': Ledger, splits: map<AccountId, Split>) {
    && (forall a :: Free(l', a) + Reserved(l', a)
                    == Free(l, a) + Reserved(l, a) + if a in l.accounts then Sum(Gains(l, splits, a)) else 0)
    && l'.issuance == l.issuance + Sum(map a | a in l.accounts :: Sum(Gains(l, splits, a)))
  }

  lemma NewRoundEarned(s: State, chosen: set<AccountId>, splits: map<AccountId, Split>)
    requires Selectable(s, chosen) && Distributed(s.ledger, PayStakers(s, s.round + 1).ledger, splits)
    ensures Earned(s.ledger, NewRound(s, chosen).ledger, splits)
  {
    hide Selectable, NewRound, PayStakers, Reward, Mintage, Sum, Gains;
    NewRoundConserves(s, chosen);
    PayConserves(s);
  }

  lemma EntryEarned(c: Chain, e: Event, splits: map<AccountId, Split>)
    requires Enabled(c, e) && EntersRound(c, e)
    requires Distributed(c.stake.ledger, PayStakers(c.stake, c.stake.round + 1).ledger, splits)
    ensures Earned(c.stake.ledger, Next(c, e).stake.ledger, splits)
  {
    hide Selectable, NewRound, Distributed, Earned, PayStakers;
    NewRoundEarned(c.stake, e.chosen, splits);
  }

  lemma DivisionByHistory(r: Run, i: nat, j: nat, round: nat, issuance: int,
                          dues: map<AccountId, int>, splits: map<AccountId, Split>)
    requires IsRun(r) && i <= j <= |r.events| && SetsUp(r, i, round) && At(r, j).stake.round < round + cfg.bondDuration
    requires var s := At(r, j).stake;
      IsDivision(ExposuresOf(s.atStake, round), AwardsOf(s.awarded, round), 20 * cfg.blocksPerRound, issuance, dues, splits)
    ensures DividesRound(r, i, j, round, issuance, dues, splits)
  {
    hide SetsUp, IsPortion, IsSplit;
    var s := At(r, j).stake;
    SnapshotIsolation(r, i, j, round);
    forall v ensures v in dues <==> 0 < BlocksBy(r, j, round, v) {
      AwardsCountBlocks(r, j, round, v);
    }
    forall v | v in dues ensures IsPortion(BlocksBy(r, j, round, v), cfg.blocksPerRound, issuance, dues[v]) {
      AwardsCountBlocks(r, j, round, v);
      PortionOfBlocks(BlocksBy(r, j, round, v), cfg.blocksPerRound, issuance, dues[v]);
    }
    forall v | v in splits
      ensures v in At(r, i).stake.candidates && SplitByRecord(At(r, i).stake.candidates[v], dues[v], splits[v])
    {
      assert v in At(r, i).stake.validators;
    }
  }

  /** Payment, on every run and from its history alone: the transition that pays a round divides the
      issuance that follows from the total locked when the round was set up, by the blocks that each
      validator authored in the round, and splits each part by the fee, the bond and the nominations
      that the validator's record had when the round was set up. What each account owns and what is in
      issue change by exactly what that says. */
  lemma RoundPaysExactly(r: Run, j: nat, round: nat)
      returns (i: nat, issuance: int, dues: map<AccountId, int>, splits: map<AccountId, Split>)
    requires IsRun(r) && j < |r.events| && EntersRound(At(r, j), r.events[j])
    requires 1 <= round && At(r, j).stake.round + 1 == round + cfg.bondDuration
    ensures i <= j && SetsUp(r, i, round)
    ensures var s := At(r, j).stake; IsIssuance(s.inflation, s.ledger.issuance, At(r, i).stake.total, issuance)
    ensures DividesRound(r, i, j, round, issuance, dues, splits)
    ensures Earned(At(r, j).stake.ledger, At(r, j + 1).stake.ledger, splits)
  {
    hide Next, Enabled, EntersRound, IsIssuance, ComputeIssuance, IsDivision, DividesRound, Earned, Distributed, PayStakers;
    var s := At(r, j).stake;
    i := RoundWasSetUp(r, j, round);
    StakeOfRound(r, i, j, round);
    hide SetsUp;
    PointsOfPaidRound(r, j, round);
    issuance := ComputeIssuance(s.inflation, s.ledger.issuance, Staked(s, round));
    IssuanceByStake(s.inflation, s.ledger.issuance, Staked(s, round), issuance);
    dues, splits := DivisionExists(ExposuresOf(s.atStake, round), AwardsOf(s.awarded, round), PointsOf(s.points, round), issuance);
    DivisionByHistory(r, i, j, round, issuance, dues, splits);
    PayoutExactly(s, s.round + 1, issuance, dues, splits);
    StepAt(r, j);
    EntryEarned(At(r, j), r.events[j], splits);
  }

  /** The first rounds pay nothing: until the bond duration has passed, a transition mints nothing and
      leaves each account what it owns. */
  lemma FirstRoundsPayNothing(r: Run, j: nat)
    requires IsRun(r) && j < |r.events| && EntersRound(At(r, j), r.events[j])
    requires At(r, j).stake.round + 1 <= cfg.bondDuration
    ensures var l, l' := At(r, j).stake.ledger, At(r, j + 1).stake.ledger;
      l'.issuance == l.issuance && forall a :: Free(l', a) + Reserved(l', a) == Free(l, a) + Reserved(l, a)
  {
    hide Selectable, NewRound, Free, Reserved;
    StepAt(r, j);
    NewRoundConserves(At(r, j).stake, r.events[j].chosen);
  }
}
