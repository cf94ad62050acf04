/** What each step of a run does: the answer to every call and its effect on the stakes, the steps
    that touch no stake at all, the exits of a transition, and how genesis fills the books. */
module RunSteps {
  import opened Primitives
  import opened Ascending
  import opened Currency
  import opened Inflation
  import opened StakeSpec
  import opened Books
  import opened Solvency
  import opened Switching
  import opened Indexes
  import opened Calls
  import opened Rounds
  import opened Chain
  import opened EveryRun
  import opened ExitSchedule
  import opened CleanRuns
  import opened Outcomes
  import opened CallEffects
  import opened Verdicts

  // Calls.

  /** Every call made on a clean run: the answer is the first reason to refuse it; refused, it changes
      nothing; accepted, and unless it is a switch that merges, it changes the stakes, the fees and
      the statuses as told, and the rounds and the inflation settings not at all. */
  lemma CallsAsTold(r: Run, i: nat)
    requires IsRun(r) && i < |r.events| && CleanUntil(r, i) && r.events[i].Transact?
    ensures var c, c', e := At(r, i), At(r, i + 1), r.events[i];
      var s, s', result := c.stake, c'.stake, Dispatch(c.stake, e.who, e.call).result;
      && result == Verdict(s, e.who, e.call)
      && c' == c.(stake := s')
      && (result.Err? ==> s' == s)
      && (result.Ok? && Clean(c, e) ==> CallDoes(s.candidates, s'.candidates, s.round, e.who, e.call))
      && (result.Ok? && !Governance(e.call) ==> SameRounds(s, s') && s'.inflation == s.inflation)
  {
    hide Kept, Solvent, SnapshotsSound, Clean, Verdict, CallDoes, Dispatch, Indexed;
    AlwaysKept(r, i);
    AlwaysClean(r, i);
    StepAt(r, i);
    CallAsTold(At(r, i), r.events[i]);
  }

  lemma CallAsTold(c: Chain, e: Event)
    requires Kept(c) && CleanKept(c) && e.Transact? && Enabled(c, e)
    ensures var s, s', result := c.stake, Next(c, e).stake, Dispatch(c.stake, e.who, e.call).result;
      && result == Verdict(s, e.who, e.call)
      && Next(c, e) == c.(stake := s')
      && (result.Err? ==> s' == s)
      && (result.Ok? && Clean(c, e) ==> CallDoes(s.candidates, s'.candidates, s.round, e.who, e.call))
      && (result.Ok? && !Governance(e.call) ==> SameRounds(s, s') && s'.inflation == s.inflation)
  {
    hide Indexed, RoundsKept, Clock, Solvent, SnapshotsSound, Verdict, CallDoes, Dispatch, CleanCall, LeavingStays;
    DispatchVerdict(c.stake, e.who, e.call);
    if Dispatch(c.stake, e.who, e.call).result.Err? {
      ErrorsChangeNothing(c.stake, e.who, e.call);
    } else if Clean(c, e) {
      DispatchDoes(c.stake, e.who, e.call);
    }
    if !Governance(e.call) {
      DispatchTame(c.stake, e.who, e.call);
    }
  }

  // Floors.

  /** No nominator that stays one has its total lowered to less than the floor. */
  ghost predicate FloorRespected(ns: Nominators, ns': Nominators) {
    forall n :: n in ns' ==> cfg.minNominatorStk <= ns'[n].total || (n in ns && ns[n].total <= ns'[n].total)
  }

  lemma LeaverGone(s: State, acc: AccountId)
    requires LeaveNominators(s, acc).result.Ok?
    ensures LeaveNominators(s, acc).state.nominators == s.nominators - {acc}
  {
    if acc in s.nominators {
      hide LeaveEach, List;
      LeaveEachKeepsNominators(s, acc, List(s.nominators[acc].nominations.Keys));
    }
  }

  lemma {:induction false} LeaveEachKeepsNominators(s: State, n: AccountId, vs: seq<AccountId>)
    ensures LeaveEach(s, n, vs).state.nominators == s.nominators
    decreases |vs|
  {
    hide Unreserve;
    if vs != [] {
      LeaveEachKeepsNominators(NominatorLeavesValidator(s, n, vs[0]).state, n, vs[1..]);
    }
  }

  lemma RevokeRespectsFloor(s: State, acc: AccountId, v: AccountId)
    requires RevokeNomination(s, acc, v).result.Ok?
    ensures FloorRespected(s.nominators, RevokeNomination(s, acc, v).state.nominators)
  {
    hide Unreserve;
  }

  lemma BondMoreRespectsFloor(s: State, acc: AccountId, v: AccountId, more: nat)
    requires NominatorBondMore(s, acc, v, more).result.Ok?
    ensures FloorRespected(s.nominators, NominatorBondMore(s, acc, v, more).state.nominators)
  {
    hide AdjustNominator, CanReserve, Reserve;
  }

  lemma BondLessRespectsFloor(s: State, acc: AccountId, v: AccountId, less: nat)
    requires NominatorBondLess(s, acc, v, less).result.Ok?
    ensures FloorRespected(s.nominators, NominatorBondLess(s, acc, v, less).state.nominators)
  {
    hide AdjustNominator, Unreserve;
  }

  lemma JoiningRespectsFloor(s: State, acc: AccountId, v: AccountId, amount: nat)
    requires JoinNominators(s, acc, v, amount).result.Ok?
    ensures FloorRespected(s.nominators, JoinNominators(s, acc, v, amount).state.nominators)
  {
    JoinNominatorsEffect(s, acc, v, amount);
    hide JoinNominators, CanReserve, Reserve;
  }

  lemma NominatingRespectsFloor(s: State, acc: AccountId, v: AccountId, amount: nat)
    requires NominateNew(s, acc, v, amount).result.Ok?
    ensures FloorRespected(s.nominators, NominateNew(s, acc, v, amount).state.nominators)
  {
    hide CanReserve, Reserve;
  }

  /** Whatever the state, no accepted call leaves a nominator with less than the floor, unless it had
      no more before: only the exit of a validator can take one below it. */
  lemma CallsRespectFloor(s: State, who: AccountId, call: Call)
    requires Dispatch(s, who, call).result.Ok?
    ensures FloorRespected(s.nominators, Dispatch(s, who, call).state.nominators)
  {
    hide FloorRespected, SetStakingExpectations, SetInflation, JoinCandidates, LeaveCandidates, GoOffline, GoOnline,
      CandidateBondMore, CandidateBondLess, JoinNominators, LeaveNominators, NominateNew, SwitchNomination,
      RevokeNomination, NominatorBondMore, NominatorBondLess;
    match call
    case CallJoinNominators(v, amount) => JoiningRespectsFloor(s, who, v, amount);
    case CallLeaveNominators => LeaverGone(s, who); LeavingRespectsFloor(s.nominators, who);
    case CallNominateNew(v, amount) => NominatingRespectsFloor(s, who, v, amount);
    case CallSwitchNomination(from, to) => SwitchRespectsFloor(s, who, from, to);
    case CallRevokeNomination(v) => RevokeRespectsFloor(s, who, v);
    case CallNominatorBondMore(v, more) => BondMoreRespectsFloor(s, who, v, more);
    case CallNominatorBondLess(v, less) => BondLessRespectsFloor(s, who, v, less);
    case _ => OtherCallsRespectFloor(s, who, call);
  }

  lemma LeavingRespectsFloor(ns: Nominators, n: AccountId)
    ensures FloorRespected(ns, ns - {n})
  {
  }

  lemma SwitchRespectsFloor(s: State, acc: AccountId, from: AccountId, to: AccountId)
    ensures FloorRespected(s.nominators, SwitchNomination(s, acc, from, to).state.nominators)
  {
    hide PutCandidate, RmNominator, AddNominator, UpdateNominator;
  }

  lemma OtherCallsRespectFloor(s: State, who: AccountId, call: Call)
    requires Governance(call) || call.CallJoinCandidates? || call.CallLeaveCandidates? || call.CallGoOffline? || call.CallGoOnline?
          || call.CallCandidateBondMore? || call.CallCandidateBondLess?
    ensures Dispatch(s, who, call).state.nominators == s.nominators
    ensures FloorRespected(s.nominators, s.nominators)
  {
    hide CanReserve, Reserve, Unreserve, IsValidRate, IsValidExpectation, AnnualToRound;
  }

  // The other steps.

  /** Every step that is neither a call nor a transition: what it changes, and that it touches no
      record, no index, no total and no setting; and nobody's balance, but for what others do. */
  lemma OtherSteps(c: Chain, e: Event)
    requires Enabled(c, e) && !e.Transact? && !EntersRound(c, e)
    ensures var s, s', c' := c.stake, Next(c, e).stake, Next(c, e);
      && s' == s.(awarded := s'.awarded, points := s'.points, ledger := s'.ledger)
      && (!e.Others? ==> s'.ledger == s.ledger)
      && (!e.SetAuthor? ==> s'.awarded == s.awarded && s'.points == s.points)
      && c'.block == c.block + (if e.Initialize? then 1 else 0)
      && c'.open == (if e.Initialize? then true else if e.Finalize? then false else c.open)
      && c'.ratio == (if e.SetEligible? then e.ratio else c.ratio)
      && (e.Initialize? ==> c'.author == None)
      && (!e.Initialize? && !e.SetAuthor? ==> c'.author == c.author)
  {
    hide AuthorAccepted, OthersActed, Selectable;
  }

  /** The ratio of the last `SetEligible` among the first `i` events; one half if there is none. */
  ghost function LastRatio(events: seq<Event>, i: nat): Percent
    requires i <= |events|
  {
    if i == 0 then 50 else if events[i - 1].SetEligible? then events[i - 1].ratio else LastRatio(events, i - 1)
  }

  /** How many of the first `i` events begin a block. */
  ghost function BlocksBegun(events: seq<Event>, i: nat): nat
    requires i <= |events|
  {
    if i == 0 then 0 else BlocksBegun(events, i - 1) + if events[i - 1].Initialize? then 1 else 0
  }

  /** On every run the eligible ratio is the last one set, and the block number counts the blocks begun. */
  lemma {:induction false} RatioAndBlock(r: Run, i: nat)
    requires IsRun(r) && i <= |r.events|
    ensures At(r, i).ratio == LastRatio(r.events, i) && At(r, i).block == BlocksBegun(r.events, i)
    decreases i
  {
    hide Enabled, GenesisAccepted, AuthorAccepted, Dispatch, GenesisStake, OnFinalize, NoteAuthor;
    PrefixIsRun(r, i);
    if i > 0 {
      RatioAndBlock(r, i - 1);
      StepAt(r, i - 1);
    }
  }

  // Transitions.

  /** On every run a transition removes exactly the candidates whose exit is due, leaves the record of
      every other one as it is, and touches neither the pool nor the inflation settings. On a clean run
      the nominators follow: each keeps its stakes with those that stay. */
  lemma TransitionsAsTold(r: Run, i: nat)
    requires IsRun(r) && i < |r.events| && EntersRound(At(r, i), r.events[i])
    ensures var s, s' := At(r, i).stake, At(r, i + 1).stake;
      && s'.round == s.round + 1
      && (forall v :: v in s'.candidates <==> v in s.candidates && s.candidates[v].status != Leaving(s'.round))
      && (forall v :: v in s'.candidates ==> s'.candidates[v] == s.candidates[v])
      && s'.pool == s.pool && s'.inflation == s.inflation
      && (CleanUntil(r, i) ==>
            && Solvent(s')
            && (forall n :: n in s'.nominators <==> n in s.nominators && exists v :: Stays(s', v, n))
            && (forall n, v :: n in s'.nominators && Stays(s', v, n) ==>
                  && Nominates(s.nominators, n, v) && Nominates(s'.nominators, n, v)
                  && s'.nominators[n].nominations[v] == s.nominators[n].nominations[v]))
  {
    hide Kept, CleanKept, Enabled, EntersRound, Next, Clean, Solvent, Stays, Nominates;
    AlwaysKept(r, i);
    StepAt(r, i);
    var s, s' := At(r, i).stake, At(r, i + 1).stake;
    EntryRecords(At(r, i), r.events[i]);
    if CleanUntil(r, i) {
      AlwaysClean(r, i);
      EntrySolvent(At(r, i), r.events[i]);
      NominatorsFollow(s, s');
    }
  }

  /** `n` backs candidate `v`. */
  ghost predicate Stays(s: State, v: AccountId, n: AccountId) {
    Backs(s.candidates, v, n)
  }

  lemma EntryRecords(c: Chain, e: Event)
    requires Kept(c) && Enabled(c, e) && EntersRound(c, e)
    ensures var s, s' := c.stake, Next(c, e).stake;
      && s'.round == s.round + 1
      && (forall v :: v in s'.candidates <==> v in s.candidates && s.candidates[v].status != Leaving(s'.round))
      && (forall v :: v in s'.candidates ==> s'.candidates[v] == s.candidates[v])
      && s'.pool == s.pool && s'.inflation == s.inflation
  {
    hide Indexed, RoundsKept, Clock, Selectable, NewRound, DueExits;
    NewRoundIndexed(c.stake, e.chosen);
    NewRoundFrame(c.stake, e.chosen);
  }

  lemma NewRoundFrame(s: State, chosen: set<AccountId>)
    requires Selectable(s, chosen)
    ensures NewRound(s, chosen).pool == s.pool && NewRound(s, chosen).inflation == s.inflation
  {
    hide BeforeSelection, BestChoice, DueExits;
    BeforeSelectionFrame(s);
  }

  lemma EntrySolvent(c: Chain, e: Event)
    requires CleanKept(c) && Enabled(c, e) && EntersRound(c, e)
    ensures Solvent(c.stake) && Solvent(Next(c, e).stake)
  {
    hide Solvent, SnapshotsSound, Selectable, NewRound;
    NewRoundSolvent(c.stake, e.chosen);
  }

  lemma NominatorsFollow(s: State, s': State)
    requires Solvent(s) && Solvent(s')
    requires forall v :: v in s'.candidates ==> v in s.candidates && s'.candidates[v] == s.candidates[v]
    ensures forall n :: n in s'.nominators <==> n in s.nominators && exists v :: Stays(s', v, n)
    ensures forall n, v :: n in s'.nominators && Stays(s', v, n) ==>
              && Nominates(s.nominators, n, v) && Nominates(s'.nominators, n, v)
              && s'.nominators[n].nominations[v] == s.nominators[n].nominations[v]
  {
    hide Solvent;
    forall n, v | Stays(s', v, n)
      ensures Nominates(s.nominators, n, v) && Nominates(s'.nominators, n, v)
      ensures s'.nominators[n].nominations[v] == s.nominators[n].nominations[v]
    {
      BackedIsNominated(s, v, n);
      BackedIsNominated(s', v, n);
    }
    forall n | n in s'.nominators ensures exists v :: Stays(s', v, n) {
      var v := NominatorHasNomination(s', n);
      assert Stays(s', v, n);
    }
  }

  lemma BackedIsNominated(s: State, v: AccountId, n: AccountId)
    requires Solvent(s) && Backs(s.candidates, v, n)
    ensures Nominates(s.nominators, n, v) && s.nominators[n].nominations[v] == s.candidates[v].nominators[n]
  {
    hide LocalSums, Floors, Roles, Covered;
  }

  lemma NominatorHasNomination(s: State, n: AccountId) returns (v: AccountId)
    requires Solvent(s) && n in s.nominators
    ensures Backs(s.candidates, v, n)
  {
    hide LocalSums, BondsAboveFloor, NominationsAboveFloor, Roles, Covered;
    assert s.nominators[n].nominations.Keys != {};
    v :| v in s.nominators[n].nominations;
    assert Nominates(s.nominators, n, v);
  }

  // Genesis.

  /** The call that a staker of the genesis configuration stands for. */
  function JoinCall(x: Staker): Call {
    match x.nominated
    case Some(v) => CallJoinNominators(v, x.balance)
    case None => CallJoinCandidates(0, x.balance)
  }

  lemma {:induction false} JoinAllSplits(s: State, xs: seq<Staker>, i: nat)
    requires i < |xs| && JoinAll(s, xs).Some?
    ensures JoinAll(s, xs[..i]).Some? && JoinAll(s, xs[..i + 1]).Some?
    ensures var one := JoinAll(s, xs[..i]).value;
      && xs[i].balance <= Free(one.ledger, xs[i].actor)
      && JoinAll(s, xs[..i + 1]).value == JoinAtGenesis(one, xs[i])
    decreases |xs|
  {
    hide JoinAtGenesis;
    if i == 0 {
      assert xs[..1] == [xs[0]] && xs[..0] == [];
      assert [xs[0]][1..] == [];
      assert JoinAll(JoinAtGenesis(s, xs[0]), []) == Some(JoinAtGenesis(s, xs[0]));
    } else {
      JoinAllSplits(JoinAtGenesis(s, xs[0]), xs[1..], i - 1);
      assert xs[..i][1..] == xs[1..][..i - 1] && xs[..i + 1][1..] == xs[1..][..i];
    }
  }

  /** Genesis starts from empty books and makes one call for each staker, in order, as if the staker
      had made it: to join as a candidate without a fee, or as a nominator. Each can cover its balance
      at its turn; a refused call leaves the books as they are. */
  lemma GenesisCallsInOrder(g: Genesis, i: nat)
    requires GenesisAccepted(g) && i <= |g.stakers|
    ensures JoinAll(Empty(g), g.stakers[..i]).Some?
    ensures var s := JoinAll(Empty(g), g.stakers[..i]).value;
      && (i == 0 ==> s.candidates == map[] && s.nominators == map[] && s.ledger == g.ledger)
      && (i < |g.stakers| ==> var x := g.stakers[i];
            && JoinAll(Empty(g), g.stakers[..i + 1]).Some?
            && x.balance <= Free(s.ledger, x.actor)
            && JoinAll(Empty(g), g.stakers[..i + 1]).value == Dispatch(s, x.actor, JoinCall(x)).state)
      && (i == |g.stakers| ==> var t := Start(g).stake;
            && t.candidates == s.candidates && t.nominators == s.nominators && t.ledger == s.ledger
            && t.pool == s.pool && t.exits == s.exits && t.total == s.total)
  {
    hide JoinAtGenesis, BestChoice;
    assert g.stakers[..|g.stakers|] == g.stakers && g.stakers[..0] == [];
    if i < |g.stakers| {
      JoinAllSplits(Empty(g), g.stakers, i);
      JoinIsCall(JoinAll(Empty(g), g.stakers[..i]).value, g.stakers[i]);
    }
  }

  lemma JoinIsCall(s: State, x: Staker)
    ensures JoinAtGenesis(s, x) == Dispatch(s, x.actor, JoinCall(x)).state
  {
    hide JoinNominators, JoinCandidates;
  }
}
