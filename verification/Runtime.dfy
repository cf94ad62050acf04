/** The three pallets wired together: the author filter draws who may author, the author inherent
    admits one author for each block, and the staking pallet is told of it. Every hook, inherent and
    call is proved to be the step of the chain that the theorems about runs speak of. */
module Runtime {
  import opened Primitives
  import opened PerThing
  import opened Currency
  import opened Inflation
  import opened AuthorDraw
  import opened OrderedSets
  import opened Storage
  import opened StakePallet
  import opened Chain
  import opened Indexes
  import opened EveryRun
  import Spec = StakeSpec

  class Runtime {
    const stake: Pallet
    var author: Option<AccountId>
    var eligibleRatio: Percent
    var block: nat
    var open: bool

    ghost predicate Valid()
      reads this, stake
    {
      stake.Valid()
    }

    ghost function Abs(): Chain
      reads this, stake
    {
      Chain(stake.Abs(), author, eligibleRatio, block, open)
    }

    constructor (pallet: Pallet)
      ensures stake == pallet && author == None && eligibleRatio == 50 && block == 0 && !open
    {
      stake := pallet;
      author, eligibleRatio, block, open := None, 50, 0, false;
    }

    /** Draws validators one at a time, moving each from the vector of those left to that of those
        eligible, and looks for `account` among the latter. */
    method CanAuthor(account: AccountId, random: Randomness, relay: nat) returns (can: bool)
      ensures can <==> account in Eligible(stake.validators, eligibleRatio, random, relay)
    {
      hide MulCeil, DrawFirst, NextIndex;
      DrawNone(stake.validators, random, relay);
      var staked, eligible := stake.validators, [];
      var count := MulCeil(eligibleRatio, |staked|);
      for i := 0 to count
        invariant Draw(eligible, staked) == DrawFirst(stake.validators, i, random, relay)
      {
        DrawNext(stake.validators, i, random, relay);
        var index := NextIndex(staked, i, random, relay);
        eligible := eligible + [staked[index]];
        staked := staked[..index] + staked[index + 1..];
      }
      return account in eligible;
    }

    method OnInitialize()
      requires Valid() && !open
      modifies this
      ensures Valid() && Abs() == Next(old(Abs()), Initialize)
      ensures block == old(block) + 1 && author == None && open
    {
      block := block + 1;
      author := None;
      open := true;
    }

    /** The inherent that names the author of the block. */
    method SetAuthor(a: AccountId, random: Randomness, relay: nat) returns (result: DispatchResult)
      requires Valid() && open
      modifies this, stake
      ensures Valid() && Abs() == Next(old(Abs()), Event.SetAuthor(a, random, relay))
      ensures result == if old(author).Some? then Err(AuthorAlreadySet)
                        else if a !in Eligible(old(stake.validators), old(eligibleRatio), random, relay) then Err(CannotBeAuthor)
                        else Ok
      ensures author == if result.Ok? then Some(a) else old(author)
    {
      hide Eligible, Spec.NoteAuthor, Pallet.Valid, CandidatesOf, NominatorsOf, AtStakeOf, ToMap;
      if author.Some? {
        return Err(AuthorAlreadySet);
      }
      var can := CanAuthor(a, random, relay);
      if !can {
        return Err(CannotBeAuthor);
      }
      author := Some(a);
      stake.NoteAuthor(a);
      return Ok;
    }

    method SetEligible(ratio: Percent)
      requires Valid() && open
      modifies this
      ensures Valid() && Abs() == Next(old(Abs()), Event.SetEligible(ratio)) && eligibleRatio == ratio
    {
      eligibleRatio := ratio;
    }

    method Transact(who: AccountId, call: Spec.Call) returns (result: DispatchResult)
      requires Valid() && open
      modifies stake
      ensures Valid() && Abs() == Next(old(Abs()), Event.Transact(who, call))
      ensures result == Spec.Dispatch(old(stake.Abs()), who, call).result
    {
      hide Pallet.Valid, Pallet.Abs, Spec.SetStakingExpectations, Spec.SetInflation, Spec.JoinCandidates, Spec.LeaveCandidates,
        Spec.GoOffline, Spec.GoOnline, Spec.CandidateBondMore, Spec.CandidateBondLess, Spec.JoinNominators,
        Spec.LeaveNominators, Spec.NominateNew, Spec.SwitchNomination, Spec.RevokeNomination, Spec.NominatorBondMore,
        Spec.NominatorBondLess;
      match call
      case CallSetStakingExpectations(e) => result := stake.SetStakingExpectations(e);
      case CallSetInflation(r) => result := stake.SetInflation(r);
      case CallJoinCandidates(fee, bond) => result := stake.JoinCandidates(who, fee, bond);
      case CallLeaveCandidates => result := stake.LeaveCandidates(who);
      case CallGoOffline => result := stake.GoOffline(who);
      case CallGoOnline => result := stake.GoOnline(who);
      case CallCandidateBondMore(more) => result := stake.CandidateBondMore(who, more);
      case CallCandidateBondLess(less) => result := stake.CandidateBondLess(who, less);
      case CallJoinNominators(v, amount) => result := stake.JoinNominators(who, v, amount);
      case CallLeaveNominators => result := stake.LeaveNominators(who);
      case CallNominateNew(v, amount) => result := stake.NominateNew(who, v, amount);
      case CallSwitchNomination(from, to) => result := stake.SwitchNomination(who, from, to);
      case CallRevokeNomination(v) => result := stake.RevokeNomination(who, v);
      case CallNominatorBondMore(v, more) => result := stake.NominatorBondMore(who, v, more);
      case CallNominatorBondLess(v, less) => result := stake.NominatorBondLess(who, v, less);
    }

    /** Panics without an author; otherwise the staking pallet ends the block, and the round if this
        was its last. The validators chosen are the sort's choice. */
    method OnFinalize() returns (ghost chosen: set<AccountId>)
      requires Valid() && open && author.Some?
      requires Indexed(stake.Abs())
      modifies this, stake
      ensures Valid() && Enabled(old(Abs()), Finalize(chosen)) && Abs() == Next(old(Abs()), Finalize(chosen))
    {
      PoolSelectable(stake.Abs());
      hide Pallet.Valid, Pallet.Abs, Indexed, Spec.BeforeSelection, Spec.Selectable, Spec.OnFinalize;
      chosen := stake.OnFinalize(block);
      open := false;
    }
  }

  lemma PoolSelectable(s: Spec.State)
    requires Indexed(s)
    ensures Spec.BeforeSelection(s).pool.Keys <= Spec.BeforeSelection(s).candidates.Keys
  {
    hide Spec.BeforeSelection, Spec.DueExits;
    BeforeSelectionFrame(s);
    ExitsIndexedNext(s);
  }

  /** Genesis: the stakers join in order, and the first validators are chosen. It panics when a staker
      cannot cover its balance. */
  method BuildGenesis(ledger: Ledger, inflation: InflationInfo, stakers: seq<Staker>) returns (r: Runtime, ghost g: Genesis)
    requires ledger.held == map[]
    requires JoinAll(Empty(Genesis(ledger, inflation, stakers, {})), stakers).Some?
    ensures fresh(r) && fresh(r.stake) && r.Valid()
    ensures g.ledger == ledger && g.inflation == inflation && g.stakers == stakers
    ensures GenesisAccepted(g) && r.Abs() == Start(g)
  {
    var pallet := new Pallet(ledger, inflation);
    g := Genesis(ledger, inflation, stakers, {});
    ghost var joined := JoinAll(Empty(g), stakers);
    assert Indexed(Empty(g));
    JoinAllKeeps(Empty(g), stakers);
    assert stakers[0..] == stakers;
    for i := 0 to |stakers|
      invariant pallet.Valid() && JoinAll(pallet.Abs(), stakers[i..]) == joined
    {
      hide Spec.JoinCandidates, Spec.JoinNominators;
      JoinNext(pallet.Abs(), stakers, i);
      var result;
      match stakers[i].nominated {
        case Some(v) => result := pallet.JoinNominators(stakers[i].actor, v, stakers[i].balance);
        case None => result := pallet.JoinCandidates(stakers[i].actor, 0, stakers[i].balance);
      }
    }
    assert JoinAll(pallet.Abs(), []) == Some(pallet.Abs());
    ghost var chosen;
    var count, sum;
    count, sum, chosen := pallet.BestCandidatesBecomeValidators(1);
    pallet.StartFirstRound();
    g := Genesis(ledger, inflation, stakers, chosen);
    r := new Runtime(pallet);
  }

  lemma JoinNext(s: Spec.State, stakers: seq<Staker>, i: nat)
    requires i < |stakers| && JoinAll(s, stakers[i..]).Some?
    ensures JoinAll(s, stakers[i..]) == JoinAll(JoinAtGenesis(s, stakers[i]), stakers[i + 1..])
  {
    assert stakers[i..][1..] == stakers[i + 1..];
  }
}
