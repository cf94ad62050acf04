/** The chain as a state machine: genesis, the hooks and inherents of a block, the dispatchables, and
    whatever the rest of the runtime does to the ledger. A run is any finite sequence of its steps. */
module Chain {
  import opened Primitives
  import opened Currency
  import opened Inflation
  import opened AuthorDraw
  import opened StakeSpec
  import opened Switching

  /** The staking storage, the author of the current block if set, the eligible ratio, the number of
      the current or last block, and whether it is still being executed. */
  datatype Chain = Chain(stake: State, author: Option<AccountId>, ratio: Percent, block: nat, open: bool)

  // Genesis.

  datatype Staker = Staker(actor: AccountId, nominated: Option<AccountId>, balance: nat)

  datatype Genesis = Genesis(ledger: Ledger, inflation: InflationInfo, stakers: seq<Staker>, chosen: set<AccountId>)

  function Empty(g: Genesis): State {
    State(0, map[], map[], [], 0, map[], map[], map[], map[], g.inflation, map[], map[], g.ledger)
  }

  /** One configured staker joins; a join that fails is ignored. */
  function JoinAtGenesis(s: State, x: Staker): State {
    match x.nominated
    case Some(v) => JoinNominators(s, x.actor, v, x.balance).state
    case None => JoinCandidates(s, x.actor, 0, x.balance).state
  }

  /** The stakers join in order; genesis is refused when one cannot cover its balance. */
  function JoinAll(s: State, stakers: seq<Staker>): Option<State>
    decreases |stakers|
  {
    if stakers == [] then Some(s)
    else if Free(s.ledger, stakers[0].actor) < stakers[0].balance then None
    else JoinAll(JoinAtGenesis(s, stakers[0]), stakers[1..])
  }

  ghost predicate GenesisAccepted(g: Genesis) {
    && g.ledger.held == map[]
    && JoinAll(Empty(g), g.stakers).Some?
    && BestChoice(JoinAll(Empty(g), g.stakers).value.pool, g.chosen)
    && g.chosen <= JoinAll(Empty(g), g.stakers).value.candidates.Keys
  }

  ghost function GenesisStake(g: Genesis): State
    requires GenesisAccepted(g)
  {
    var s := SelectValidators(JoinAll(Empty(g), g.stakers).value, 1, g.chosen);
    s.(round := 1, staked := s.staked[1 := s.total])
  }

  ghost function Start(g: Genesis): Chain
    requires GenesisAccepted(g)
  {
    Chain(GenesisStake(g), None, 50, 0, false)
  }

  // Steps.

  datatype Event =
    | Initialize
    | SetAuthor(author: AccountId, random: Randomness, relay: nat)
    | Transact(who: AccountId, call: Call)
    | SetEligible(ratio: Percent)
    | Others(ledger: Ledger)
    | Finalize(chosen: set<AccountId>)

  /** A block without an author cannot be finalized: the code panics, so there is no such step. */
  ghost predicate Enabled(c: Chain, e: Event) {
    match e
    case Initialize => !c.open
    case SetAuthor(_, _, _) => c.open
    case Transact(_, _) => c.open
    case SetEligible(_) => c.open
    case Others(l) => OthersActed(c.stake.ledger, l)
    case Finalize(chosen) =>
      c.open && c.author.Some? && (c.block % cfg.blocksPerRound == 0 ==> Selectable(c.stake, chosen))
  }

  predicate AuthorAccepted(c: Chain, author: AccountId, random: Randomness, relay: nat) {
    c.author.None? && MayAuthor(c.stake.validators, c.ratio, random, relay, author)
  }

  ghost function Next(c: Chain, e: Event): Chain
    requires Enabled(c, e)
  {
    match e
    case Initialize => c.(block := c.block + 1, author := None, open := true)
    case SetAuthor(a, random, relay) =>
      if AuthorAccepted(c, a, random, relay) then c.(author := Some(a), stake := NoteAuthor(c.stake, a)) else c
    case Transact(who, call) => c.(stake := Dispatch(c.stake, who, call).state)
    case SetEligible(ratio) => c.(ratio := ratio)
    case Others(l) => c.(stake := c.stake.(ledger := l))
    case Finalize(chosen) => c.(stake := OnFinalize(c.stake, c.block, chosen), open := false)
  }

  /** Every step is clean but an accepted switch into a validator that the caller already nominates. */
  ghost predicate Clean(c: Chain, e: Event) {
    e.Transact? ==> CleanCall(c.stake, e.who, e.call)
  }

  /** What a step adds to a bond without adding it to the total locked, or takes from one. */
  ghost function Adjustment(c: Chain, e: Event): int {
    if !e.Transact? || Dispatch(c.stake, e.who, e.call).result.Err? then 0
    else match e.call
      case CallCandidateBondMore(more) => more
      case CallCandidateBondLess(less) => 0 - less
      case CallNominatorBondMore(_, more) => more
      case CallNominatorBondLess(_, less) => 0 - less
      case _ => 0
  }

  // Runs.

  datatype Run = Run(genesis: Genesis, events: seq<Event>)

  ghost function After(r: Run, i: nat): Option<Chain>
    requires i <= |r.events|
    decreases i
  {
    if i == 0 then
      if GenesisAccepted(r.genesis) then Some(Start(r.genesis)) else None
    else
      var before := After(r, i - 1);
      if before.None? || !Enabled(before.value, r.events[i - 1]) then None
      else Some(Next(before.value, r.events[i - 1]))
  }

  /** Every event of the run is enabled where it happens. */
  ghost predicate IsRun(r: Run) {
    After(r, |r.events|).Some?
  }

  /** The state of the chain after `i` events. */
  ghost function At(r: Run, i: nat): Chain
    requires IsRun(r) && i <= |r.events|
  {
    PrefixIsRun(r, i);
    After(r, i).value
  }

  lemma {:induction false} PrefixIsRun(r: Run, i: nat)
    requires IsRun(r) && i <= |r.events|
    ensures After(r, i).Some?
    decreases |r.events| - i
  {
    if i < |r.events| {
      PrefixIsRun(r, i + 1);
    }
  }

  lemma StepAt(r: Run, i: nat)
    requires IsRun(r) && i < |r.events|
    ensures Enabled(At(r, i), r.events[i]) && At(r, i + 1) == Next(At(r, i), r.events[i])
  {
    PrefixIsRun(r, i);
    PrefixIsRun(r, i + 1);
  }

  lemma {:induction false} SamePrefix(r: Run, e: Event, i: nat)
    requires i <= |r.events|
    ensures After(Run(r.genesis, r.events + [e]), i) == After(r, i)
    decreases i
  {
    hide Enabled, Next, Start, GenesisAccepted;
    if i > 0 {
      SamePrefix(r, e, i - 1);
      assert (r.events + [e])[i - 1] == r.events[i - 1];
    }
  }

  /** An enabled event extends a run, and changes nothing in its past. */
  lemma ExtendRun(r: Run, e: Event)
    requires IsRun(r) && Enabled(At(r, |r.events|), e)
    ensures var r' := Run(r.genesis, r.events + [e]);
      && IsRun(r') && At(r', |r.events| + 1) == Next(At(r, |r.events|), e)
      && forall i :: 0 <= i <= |r.events| ==> At(r', i) == At(r, i)
  {
    hide Enabled, Next, Start, GenesisAccepted;
    forall i: nat | i <= |r.events| ensures After(Run(r.genesis, r.events + [e]), i) == After(r, i) {
      SamePrefix(r, e, i);
    }
    assert (r.events + [e])[|r.events|] == e;
  }

  ghost predicate CleanUntil(r: Run, i: nat)
    requires IsRun(r) && i <= |r.events|
  {
    forall k :: 0 <= k < i ==> Clean(At(r, k), r.events[k])
  }

  /** All bond_more less all bond_less so far. */
  ghost function NetAdjustment(r: Run, i: nat): int
    requires IsRun(r) && i <= |r.events|
    decreases i
  {
    if i == 0 then 0 else NetAdjustment(r, i - 1) + Adjustment(At(r, i - 1), r.events[i - 1])
  }
}
