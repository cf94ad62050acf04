/** What holds after every step of every run, clean or not. */
module EveryRun {
  import opened Primitives
  import opened PerThing
  import opened Ascending
  import opened Currency
  import opened AuthorDraw
  import opened StakeSpec
  import opened Indexes
  import opened Calls
  import opened Rounds
  import opened Chain

  /** The round follows from the block number, and the points of the current round from the blocks
      of the round that have an author. */
  ghost predicate Clock(c: Chain) {
    if c.open then
      && 1 <= c.block
      && c.stake.round == (c.block - 1) / cfg.blocksPerRound + 1
      && PointsOf(c.stake.points, c.stake.round)
         == 20 * ((c.block - 1) % cfg.blocksPerRound) + if c.author.Some? then 20 else 0
    else
      && c.stake.round == c.block / cfg.blocksPerRound + 1
      && PointsOf(c.stake.points, c.stake.round) == 20 * (c.block % cfg.blocksPerRound)
  }

  ghost predicate Kept(c: Chain) {
    Indexed(c.stake) && RoundsKept(c.stake) && Clock(c)
  }

  lemma DivUnique(n: nat, b: nat, q: nat, r: nat)
    requires 0 < b && r < b && n == q * b + r
    ensures n / b == q && n % b == r
  {
    SameQuotient(n / b, n % b, q, r, b);
  }

  lemma SameQuotient(q: nat, r: nat, q': nat, r': nat, b: nat)
    requires r < b && r' < b && b * q + r == q' * b + r'
    ensures q == q' && r == r'
  {
    if q < q' {
      MulLess(q, q', b);
    } else if q' < q {
      MulLess(q', q, b);
    }
  }

  lemma NextBlock(n: nat, b: nat)
    requires 1 <= n && 0 < b
    ensures n % b == 0 ==> (n - 1) / b + 1 == n / b && (n - 1) % b == b - 1
    ensures n % b != 0 ==> (n - 1) / b == n / b && (n - 1) % b + 1 == n % b
  {
    BlockBefore(n, b, n / b, n % b);
  }

  lemma BlockBefore(n: nat, b: nat, q: nat, r: nat)
    requires 1 <= n && r < b && n == b * q + r
    ensures r == 0 ==> (n - 1) / b + 1 == q && (n - 1) % b == b - 1
    ensures r != 0 ==> (n - 1) / b == q && (n - 1) % b + 1 == r
  {
    if r == 0 {
      Predecessor(q, b);
      DivUnique(n - 1, b, q - 1, b - 1);
    } else {
      DivUnique(n - 1, b, q, r - 1);
    }
  }

  lemma Predecessor(q: nat, b: nat)
    requires 1 <= b * q
    ensures 1 <= q && b * q - 1 == (q - 1) * b + (b - 1)
  {
    assert (q - 1) * b == q * b - b;
  }

  // Genesis.

  lemma JoinAtGenesisKeeps(s: State, x: Staker)
    ensures Tame(s, JoinAtGenesis(s, x)) && Roomy(s.candidates, JoinAtGenesis(s, x).candidates)
    ensures JoinAtGenesis(s, x).exits == s.exits
  {
    hide Tame, Roomy, CanReserve, Reserve;
    match x.nominated
    case Some(v) =>
      JoinNominatorsTame(s, x.actor, v, x.balance);
      if JoinNominators(s, x.actor, v, x.balance).result.Ok? {
      } else {
        assert JoinNominators(s, x.actor, v, x.balance).state == s;
      }
    case None =>
      JoinCandidatesTame(s, x.actor, 0, x.balance);
      if JoinCandidates(s, x.actor, 0, x.balance).result.Ok? {
      } else {
        assert JoinCandidates(s, x.actor, 0, x.balance).state == s;
      }
  }

  lemma {:induction false} JoinAllKeeps(s: State, stakers: seq<Staker>)
    requires JoinAll(s, stakers).Some?
    ensures Tame(s, JoinAll(s, stakers).value) && Roomy(s.candidates, JoinAll(s, stakers).value.candidates)
    ensures JoinAll(s, stakers).value.exits == s.exits
    decreases |stakers|
  {
    hide Tame, Roomy, JoinAtGenesis;
    if stakers == [] {
      Unchanged(s);
    } else {
      var one, all := JoinAtGenesis(s, stakers[0]), JoinAll(s, stakers).value;
      JoinAtGenesisKeeps(s, stakers[0]);
      JoinAllKeeps(one, stakers[1..]);
      TameTwice(s, one, all);
      RoomyTwice(s.candidates, one.candidates, all.candidates);
    }
  }

  lemma StartKeeps(g: Genesis)
    requires GenesisAccepted(g)
    ensures Kept(Start(g))
  {
    var s0 := Empty(g);
    assert Indexed(s0);
    hide JoinAll;
    JoinAllKeeps(s0, g.stakers);
    var s := JoinAll(s0, g.stakers).value;
    var s1 := GenesisStake(g);
    assert Indexed(s1) by { hide BestChoice; }
    StartRounds(s, g.chosen, s1);
    StartClock(s1);
  }

  lemma StartRounds(s: State, chosen: set<AccountId>, s1: State)
    requires chosen <= s.candidates.Keys
    requires s.points == map[] && s.awarded == map[] && s.atStake == map[]
    requires s1.round == 1 && s1.validators == List(chosen) && s1.points == s.points && s1.awarded == s.awarded
    requires s1.atStake == SelectValidators(s, 1, chosen).atStake
    ensures RoundsKept(s1)
  {
    assert forall r: nat :: AwardsOf(s1.awarded, r) == map[];
    forall v | v in s1.validators ensures v in ExposuresOf(s1.atStake, 1) {
      assert v in chosen;
    }
  }

  lemma StartClock(s: State)
    requires s.round == 1 && s.points == map[]
    ensures Clock(Chain(s, None, 50, 0, false))
  {
    DivUnique(0, cfg.blocksPerRound, 0, 0);
  }

  // Steps.

  lemma InitializeKeeps(c: Chain)
    requires Kept(c) && !c.open
    ensures Kept(Next(c, Initialize))
  {
    hide Indexed, RoundsKept;
  }

  lemma SetAuthorKeeps(c: Chain, a: AccountId, random: Randomness, relay: nat)
    requires Kept(c) && c.open
    ensures Kept(Next(c, SetAuthor(a, random, relay)))
  {
    hide Indexed, RoundsKept, MayAuthor;
    if AuthorAccepted(c, a, random, relay) {
      assert Increasing(c.stake.validators) by { ValidatorsSorted(c.stake); }
      AuthorIsValidator(c, a, random, relay);
      NoteAuthorKeeps(c.stake, a);
      var s' := NoteAuthor(c.stake, a);
      assert s' == c.stake.(awarded := s'.awarded, points := s'.points);
      hide NoteAuthor;
      SamePartsIndexed(c.stake, s');
    } else {
      assert Next(c, SetAuthor(a, random, relay)) == c;
    }
  }

  lemma ValidatorsSorted(s: State)
    requires RoundsKept(s)
    ensures Increasing(s.validators)
  {
  }

  /** An accepted author is one of the validators of the round. */
  lemma AuthorIsValidator(c: Chain, a: AccountId, random: Randomness, relay: nat)
    requires Increasing(c.stake.validators) && AuthorAccepted(c, a, random, relay)
    ensures a in c.stake.validators
  {
    hide Eligible;
    DrawIsExact(c.stake.validators, c.ratio, random, relay);
  }

  lemma TransactKeeps(c: Chain, who: AccountId, call: Call)
    requires Kept(c) && c.open
    ensures Kept(Next(c, Transact(who, call)))
  {
    hide Indexed, RoundsKept, Dispatch;
    DispatchIndexed(c.stake, who, call);
    SameRoundsKept(c.stake, Dispatch(c.stake, who, call).state);
  }

  lemma OthersKeeps(c: Chain, l: Ledger)
    requires Kept(c) && OthersActed(c.stake.ledger, l)
    ensures Kept(Next(c, Others(l)))
  {
    hide Indexed, RoundsKept, OthersActed;
    var s' := c.stake.(ledger := l);
    SamePartsIndexed(c.stake, s');
    assert SameRounds(c.stake, s');
    SameRoundsKept(c.stake, s');
  }

  lemma FinalizeKeeps(c: Chain, chosen: set<AccountId>)
    requires Kept(c) && Enabled(c, Finalize(chosen))
    ensures Kept(Next(c, Finalize(chosen)))
  {
    hide Indexed, RoundsKept, NewRound, Selectable;
    NextBlock(c.block, cfg.blocksPerRound);
    if c.block % cfg.blocksPerRound == 0 {
      NewRoundIndexed(c.stake, chosen);
      NewRoundKeeps(c.stake, chosen);
    } else {
      assert OnFinalize(c.stake, c.block, chosen) == c.stake;
    }
  }

  lemma StepKeeps(c: Chain, e: Event)
    requires Kept(c) && Enabled(c, e)
    ensures Kept(Next(c, e))
  {
    match e
    case Initialize => hide Kept, Next; InitializeKeeps(c);
    case SetAuthor(a, random, relay) => hide Kept, Next; SetAuthorKeeps(c, a, random, relay);
    case Transact(who, call) => hide Kept, Next; TransactKeeps(c, who, call);
    case SetEligible(ratio) => hide Indexed, RoundsKept;
    case Others(l) => hide Kept, Next; OthersKeeps(c, l);
    case Finalize(chosen) => hide Kept, Next; FinalizeKeeps(c, chosen);
  }

  /** Every state of every run has exact indexes, consistent rounds and a true clock. */
  lemma {:induction false} AlwaysKept(r: Run, i: nat)
    requires IsRun(r) && i <= |r.events|
    ensures Kept(At(r, i))
    decreases i
  {
    hide Kept, Enabled, Next, Start, GenesisAccepted;
    PrefixIsRun(r, i);
    if i == 0 {
      StartKeeps(r.genesis);
    } else {
      AlwaysKept(r, i - 1);
      StepAt(r, i - 1);
      StepKeeps(At(r, i - 1), r.events[i - 1]);
    }
  }
}
