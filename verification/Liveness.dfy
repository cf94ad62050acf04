/** Whether the chain goes on: with validators and a non-zero ratio another block can always be
    executed; without validators none ever is. */
module Liveness {
  import opened Primitives
  import opened Ascending
  import opened AuthorDraw
  import opened StakeSpec
  import opened Indexes
  import opened Rounds
  import opened Chain
  import opened EveryRun
  import opened ExitSchedule
  import opened Guarantees

  // The author of an open block.

  ghost predicate AuthorChosen(c: Chain) {
    c.open && c.author.Some? ==> c.author.value in c.stake.validators
  }

  lemma TransactKeepsValidators(c: Chain, who: AccountId, call: Call)
    requires Kept(c)
    ensures Dispatch(c.stake, who, call).state.validators == c.stake.validators
  {
    hide Kept, Dispatch;
    TransactRounds(c, who, call);
  }

  /** Only the end of a round changes the validator set. */
  lemma StepKeepsValidators(c: Chain, e: Event)
    requires Kept(c) && Enabled(c, e) && !EntersRound(c, e)
    ensures Next(c, e).stake.validators == c.stake.validators
  {
    hide Kept, Dispatch, MayAuthor, NewRound, Selectable;
    if e.Transact? {
      TransactKeepsValidators(c, e.who, e.call);
    }
  }

  lemma StepAuthorChosen(c: Chain, e: Event)
    requires Kept(c) && AuthorChosen(c) && Enabled(c, e)
    ensures AuthorChosen(Next(c, e))
  {
    if e.Finalize? {
      hide Kept, OnFinalize;
    } else {
      StepKeepsValidators(c, e);
      hide Indexed, Clock, Dispatch, MayAuthor, Increasing;
      if e.SetAuthor? && AuthorAccepted(c, e.author, e.random, e.relay) {
        AuthorIsValidator(c, e.author, e.random, e.relay);
      }
    }
  }

  /** On every run the author of an open block is one of the validators. */
  lemma {:induction false} AuthorAlwaysChosen(r: Run, i: nat)
    requires IsRun(r) && i <= |r.events|
    ensures AuthorChosen(At(r, i))
    decreases i
  {
    hide Kept, Enabled, Next, GenesisAccepted;
    PrefixIsRun(r, i);
    if i > 0 {
      AuthorAlwaysChosen(r, i - 1);
      AlwaysKept(r, i - 1);
      StepAt(r, i - 1);
      StepAuthorChosen(At(r, i - 1), r.events[i - 1]);
    }
  }

  /** On every run, once the validator set is empty it stays empty: no block is ever finalized again,
      so no round ever ends, whatever calls are made. Nothing keeps the last candidates
      from going (`Witnesses.EverybodyGoesOffline`). */
  lemma {:induction false} EmptySetStopsTheChain(r: Run, i: nat, j: nat)
    requires IsRun(r) && i <= j <= |r.events| && At(r, i).stake.validators == []
    ensures At(r, j).stake.validators == [] && At(r, j).stake.round == At(r, i).stake.round
    ensures j < |r.events| ==> !r.events[j].Finalize?
    decreases j - i
  {
    hide Kept, Next, EntersRound, ExitsOnTime;
    if i < j {
      EmptySetStopsTheChain(r, i, j - 1);
      AlwaysKept(r, j - 1);
      StepAt(r, j - 1);
      StaysEmpty(At(r, j - 1), r.events[j - 1]);
    }
    AuthorAlwaysChosen(r, j);
    if j < |r.events| {
      StepAt(r, j);
    }
  }

  lemma StaysEmpty(c: Chain, e: Event)
    requires Kept(c) && Enabled(c, e) && !e.Finalize? && c.stake.validators == []
    ensures Next(c, e).stake.validators == [] && Next(c, e).stake.round == c.stake.round
  {
    StepKeepsValidators(c, e);
    StepExits(c, e);
    hide Kept, Enabled, Next;
  }

  /** On every run an open block without an author can be given one exactly when there are
      validators and the ratio is not zero. */
  lemma AuthorCanBeFound(r: Run, i: nat)
    requires IsRun(r) && i <= |r.events| && At(r, i).author.None?
    ensures (exists a, random, relay :: AuthorAccepted(At(r, i), a, random, relay))
            <==> At(r, i).stake.validators != [] && At(r, i).ratio != 0
  {
    hide Indexed, Clock, MayAuthor;
    AlwaysKept(r, i);
    DrawFindsAuthor(At(r, i));
  }

  lemma DrawFindsAuthor(c: Chain)
    requires Increasing(c.stake.validators) && c.author.None?
    ensures (exists a, random, relay :: AuthorAccepted(c, a, random, relay)) <==> c.stake.validators != [] && c.ratio != 0
  {
    hide MayAuthor;
    if exists a, random, relay :: AuthorAccepted(c, a, random, relay) {
      var a, random, relay :| AuthorAccepted(c, a, random, relay);
      DrawIsExact(c.stake.validators, c.ratio, random, relay);
    }
    if c.stake.validators != [] && c.ratio != 0 {
      var random: Randomness := (i: nat, h: nat) => 0;
      DrawIsExact(c.stake.validators, c.ratio, random, 0);
      var a :| MayAuthor(c.stake.validators, c.ratio, random, 0, a);
      assert AuthorAccepted(c, a, random, 0);
    }
  }

  /** On every run a transition leaves no validators exactly when nobody is in the pool before it, or
      no validators are wanted. */
  lemma NextSetEmptyExactly(r: Run, i: nat)
    requires IsRun(r) && i < |r.events| && EntersRound(At(r, i), r.events[i])
    ensures At(r, i + 1).stake.validators == [] <==> cfg.maxValidators == 0 || At(r, i).stake.pool == map[]
  {
    hide Selectable, OnFinalize;
    StepAt(r, i);
    FinalizedValidators(At(r, i), r.events[i].chosen);
  }

  // Blocks on end.

  ghost predicate Block(e: Event) {
    e.Initialize? || e.SetAuthor? || e.Finalize?
  }

  /** Without calls the pool and the ratio stay, and candidates only disappear. */
  ghost predicate OnlyExits(c: Chain, c': Chain) {
    && c'.stake.pool == c.stake.pool && c'.ratio == c.ratio
    && forall v :: v in c'.stake.candidates ==> v in c.stake.candidates && c'.stake.candidates[v] == c.stake.candidates[v]
  }

  /** `r'` goes on where `r` ends, with nothing but the steps that every block has. */
  ghost predicate GoesOn(r: Run, r': Run)
    requires IsRun(r) && IsRun(r')
  {
    && r'.genesis == r.genesis && |r.events| <= |r'.events|
    && (forall i :: 0 <= i <= |r.events| ==> At(r', i) == At(r, i))
    && (forall i :: 0 <= i < |r.events| ==> r'.events[i] == r.events[i])
    && (forall i :: |r.events| <= i < |r'.events| ==> Block(r'.events[i]))
    && (forall i :: |r.events| <= i <= |r'.events| ==> OnlyExits(At(r, |r.events|), At(r', i)))
  }

  lemma StepOnlyExits(c: Chain, e: Event)
    requires Kept(c) && Enabled(c, e) && Block(e)
    ensures OnlyExits(c, Next(c, e))
  {
    hide RoundsKept, Clock, MayAuthor, Indexed, BeforeSelection, BestChoice, DueExits;
    if EntersRound(c, e) {
      BeforeSelectionFrame(c.stake);
    }
  }

  lemma OnlyExitsTwice(c0: Chain, c1: Chain, c2: Chain)
    requires OnlyExits(c0, c1) && OnlyExits(c1, c2)
    ensures OnlyExits(c0, c2)
  {
  }

  lemma GoesOnItself(r: Run)
    requires IsRun(r)
    ensures GoesOn(r, r)
  {
  }

  /** One more step of a block. */
  lemma GoOn(r: Run, r1: Run, e: Event) returns (r2: Run)
    requires IsRun(r) && IsRun(r1) && GoesOn(r, r1)
    requires Block(e) && Enabled(At(r1, |r1.events|), e)
    ensures r2 == Run(r1.genesis, r1.events + [e]) && IsRun(r2) && GoesOn(r, r2)
    ensures |r2.events| == |r1.events| + 1 && r2.events[|r1.events|] == e
    ensures At(r2, |r1.events|) == At(r1, |r1.events|) && At(r2, |r2.events|) == Next(At(r1, |r1.events|), e)
  {
    hide Kept, Enabled, Next, OnlyExits;
    r2 := Run(r1.genesis, r1.events + [e]);
    ExtendRun(r1, e);
    AlwaysKept(r1, |r1.events|);
    StepOnlyExits(At(r1, |r1.events|), e);
    OnlyExitsTwice(At(r, |r.events|), At(r1, |r1.events|), At(r2, |r2.events|));
  }

  /** From an open block without an author, with validators and a non-zero ratio: the run goes on with
      an author and the end of the block. */
  lemma FinishBlock(r: Run, r1: Run) returns (r3: Run)
    requires IsRun(r) && IsRun(r1) && GoesOn(r, r1)
    requires var c := At(r1, |r1.events|); c.open && c.author.None? && c.stake.validators != [] && c.ratio != 0
    ensures IsRun(r3) && GoesOn(r, r3) && |r1.events| + 2 == |r3.events|
    ensures r3.events[|r1.events|].SetAuthor? && r3.events[|r1.events| + 1].Finalize?
    ensures var n, c, c' := |r3.events|, At(r1, |r1.events|), At(r3, |r3.events|);
      && !c'.open && c'.block == c.block && At(r3, n - 1).block == c.block
      && (c.block % cfg.blocksPerRound != 0 ==> c'.stake.validators == c.stake.validators)
      && (c.block % cfg.blocksPerRound == 0 && cfg.maxValidators != 0 && c.stake.pool != map[] ==> c'.stake.validators != [])
  {
    hide Kept, GoesOn, MayAuthor, NoteAuthor, OnFinalize, Selectable;
    var n, c := |r1.events|, At(r1, |r1.events|);
    AuthorCanBeFound(r1, n);
    var a, random, relay :| AuthorAccepted(c, a, random, relay);
    var r2 := GoOn(r, r1, SetAuthor(a, random, relay));
    assert At(r2, n + 1).stake == NoteAuthor(c.stake, a);
    NotedOnly(c.stake, a);
    OnlyAMissingAuthorStopsABlock(r2, n + 1);
    var chosen :| Enabled(At(r2, n + 1), Finalize(chosen));
    r3 := GoOn(r, r2, Finalize(chosen));
    FinalizedValidators(At(r2, n + 1), chosen);
  }

  lemma NotedOnly(s: State, a: AccountId)
    ensures NoteAuthor(s, a).validators == s.validators && NoteAuthor(s, a).pool == s.pool
  {
  }

  lemma FinalizedValidators(c: Chain, chosen: set<AccountId>)
    requires Enabled(c, Finalize(chosen))
    ensures var v := OnFinalize(c.stake, c.block, chosen).validators;
      && (c.block % cfg.blocksPerRound != 0 ==> v == c.stake.validators)
      && (c.block % cfg.blocksPerRound == 0 ==> (v == [] <==> cfg.maxValidators == 0 || c.stake.pool == map[]))
  {
    if c.block % cfg.blocksPerRound == 0 {
      hide BeforeSelection, DueExits;
      BeforeSelectionFrame(c.stake);
      assert |c.stake.pool| == 0 <==> c.stake.pool == map[];
    }
  }

  /** Between two blocks, with validators and a non-zero ratio, another block can always be executed. */
  lemma AnotherBlock(r: Run, r1: Run) returns (r3: Run)
    requires IsRun(r) && IsRun(r1) && GoesOn(r, r1)
    requires var c := At(r1, |r1.events|); !c.open && c.stake.validators != [] && c.ratio != 0
    ensures IsRun(r3) && GoesOn(r, r3) && |r1.events| + 3 == |r3.events| && r3.events[|r1.events| + 2].Finalize?
    ensures var n, c, c' := |r3.events|, At(r1, |r1.events|), At(r3, |r3.events|);
      && !c'.open && c'.block == c.block + 1 && At(r3, n - 1).block == c.block + 1
      && (cfg.maxValidators != 0 && c.stake.pool != map[] ==> c'.stake.validators != [])
  {
    hide Kept, GoesOn, Selectable, MayAuthor;
    var r2 := GoOn(r, r1, Initialize);
    hide Next, Enabled;
    r3 := FinishBlock(r, r2);
  }

  /** As long as nothing but blocks happens and somebody is in the pool, the chain goes on for as many
      blocks as one likes. */
  lemma {:induction false} AnyNumberOfBlocks(r: Run, r1: Run, n: nat) returns (r2: Run)
    requires IsRun(r) && IsRun(r1) && GoesOn(r, r1)
    requires var c := At(r1, |r1.events|);
      !c.open && c.stake.validators != [] && c.ratio != 0 && c.stake.pool != map[] && cfg.maxValidators != 0
    ensures IsRun(r2) && GoesOn(r, r2)
    ensures var c, c' := At(r1, |r1.events|), At(r2, |r2.events|);
      !c'.open && c'.block == c.block + n && c'.stake.validators != []
    ensures n == 0 ==> r2 == r1
    ensures |r2.events| == |r1.events| + 3 * n
    ensures n > 0 ==> |r2.events| > 0 && r2.events[|r2.events| - 1].Finalize?
                      && At(r2, |r2.events| - 1).block == At(r2, |r2.events|).block
    decreases n
  {
    hide OnlyExits;
    if n == 0 {
      r2 := r1;
    } else {
      var before := AnyNumberOfBlocks(r, r1, n - 1);
      SamePool(r, r1, before);
      r2 := AnotherBlock(r, before);
    }
  }

  lemma SamePool(r: Run, r1: Run, r2: Run)
    requires IsRun(r) && IsRun(r1) && IsRun(r2) && GoesOn(r, r1) && GoesOn(r, r2)
    ensures At(r1, |r1.events|).stake.pool == At(r2, |r2.events|).stake.pool
    ensures At(r1, |r1.events|).ratio == At(r2, |r2.events|).ratio
  {
    assert OnlyExits(At(r, |r.events|), At(r1, |r1.events|)) && OnlyExits(At(r, |r.events|), At(r2, |r2.events|));
  }

  lemma BlockIsClean(c: Chain, e: Event)
    requires Block(e)
    ensures Clean(c, e) && Adjustment(c, e) == 0
  {
    hide Dispatch;
  }

  lemma CleanBefore(r: Run, r': Run)
    requires IsRun(r) && IsRun(r') && GoesOn(r, r') && CleanUntil(r, |r.events|)
    ensures CleanUntil(r', |r.events|)
  {
    hide Next, Enabled, OnlyExits, Clean;
  }

  /** Blocks keep a run clean, and adjust nothing. */
  lemma {:induction false} GoesOnClean(r: Run, r': Run, i: nat)
    requires IsRun(r) && IsRun(r') && GoesOn(r, r') && CleanUntil(r, |r.events|)
    requires |r.events| <= i <= |r'.events|
    ensures CleanUntil(r', i) && NetAdjustment(r', i) == NetAdjustment(r, |r.events|)
    decreases i
  {
    hide Next, Enabled, OnlyExits, Clean, Adjustment, Block;
    if i == |r.events| {
      SameAdjustment(r, r', i);
      CleanBefore(r, r');
    } else {
      GoesOnClean(r, r', i - 1);
      BlockIsClean(At(r', i - 1), r'.events[i - 1]);
    }
  }

  lemma {:induction false} SameAdjustment(r: Run, r': Run, i: nat)
    requires IsRun(r) && IsRun(r') && GoesOn(r, r') && i <= |r.events|
    ensures NetAdjustment(r', i) == NetAdjustment(r, i)
    decreases i
  {
    hide Next, Enabled, OnlyExits, Adjustment, Block;
    if i > 0 {
      SameAdjustment(r, r', i - 1);
    }
  }
}
