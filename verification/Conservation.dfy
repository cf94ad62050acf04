/** Money is neither made nor lost by the calls and the exits, and the payout makes exactly what it
    credits. On every state, clean or not. */
module Conservation {
  import opened Primitives
  import opened Ascending
  import opened Currency
  import opened StakeSpec

  /** Nothing is minted, each account keeps its balance, and its reserve moves exactly as much as what
      this pallet books as held for it. That does not say whose reserve a release takes: it may book
      less than nothing (see `OtherReserves`). */
  ghost predicate Conserves(l: Ledger, l': Ledger) {
    && l'.issuance == l.issuance
    && (forall a :: Free(l', a) + Reserved(l', a) == Free(l, a) + Reserved(l, a))
    && (forall a :: Reserved(l', a) - Held(l', a) == Reserved(l, a) - Held(l, a))
  }

  lemma ReserveConserves(l: Ledger, a: AccountId, v: nat)
    requires CanReserve(l, a, v)
    ensures Conserves(l, Reserve(l, a, v))
  {
    hide Reserve, Free, Reserved, Held;
  }

  lemma UnreserveConserves(l: Ledger, a: AccountId, v: int)
    ensures Conserves(l, Unreserve(l, a, v))
  {
    hide Unreserve, Free, Reserved, Held, Releasable;
  }

  lemma ConservesTransitive(l0: Ledger, l1: Ledger, l2: Ledger)
    requires Conserves(l0, l1) && Conserves(l1, l2)
    ensures Conserves(l0, l2)
  {
    hide Free, Reserved, Held;
  }

  lemma Unchanged(l: Ledger)
    ensures Conserves(l, l)
  {
  }

  lemma {:induction false} LeaveEachConserves(s: State, n: AccountId, vs: seq<AccountId>)
    ensures Conserves(s.ledger, LeaveEach(s, n, vs).state.ledger)
    decreases |vs|
  {
    hide Conserves, NominatorLeavesValidator;
    if vs == [] {
      Unchanged(s.ledger);
    } else {
      LeavesValidatorConserves(s, n, vs[0]);
      var left := NominatorLeavesValidator(s, n, vs[0]);
      if left.result.Ok? {
        LeaveEachConserves(left.state, n, vs[1..]);
        ConservesTransitive(s.ledger, left.state.ledger, LeaveEach(s, n, vs).state.ledger);
      }
    }
  }

  lemma LeavesValidatorConserves(s: State, n: AccountId, v: AccountId)
    ensures Conserves(s.ledger, NominatorLeavesValidator(s, n, v).state.ledger)
  {
    hide Conserves;
    if NominatorLeavesValidator(s, n, v).result.Ok? {
      UnreserveConserves(s.ledger, n, s.candidates[v].nominators[n]);
    } else {
      Unchanged(s.ledger);
    }
  }

  /** No dispatchable mints or changes what any account owns in all, and each books every change of a
      reserve as held, whatever the state and whatever its outcome. */
  lemma DispatchConserves(s: State, who: AccountId, call: Call)
    ensures Conserves(s.ledger, Dispatch(s, who, call).state.ledger)
  {
    hide Conserves, LeaveEach, CanReserve, Reserve, Unreserve;
    Unchanged(s.ledger);
    match call
    case CallSetStakingExpectations(e) =>
    case CallSetInflation(r) =>
    case CallJoinCandidates(fee, bond) =>
      if JoinCandidates(s, who, fee, bond).result.Ok? { ReserveConserves(s.ledger, who, bond); }
    case CallLeaveCandidates =>
    case CallGoOffline =>
    case CallGoOnline =>
    case CallCandidateBondMore(more) =>
      if CandidateBondMore(s, who, more).result.Ok? { ReserveConserves(s.ledger, who, more); }
    case CallCandidateBondLess(less) =>
      if CandidateBondLess(s, who, less).result.Ok? { UnreserveConserves(s.ledger, who, less); }
    case CallJoinNominators(v, amount) =>
      if JoinNominators(s, who, v, amount).result.Ok? { ReserveConserves(s.ledger, who, amount); }
    case CallLeaveNominators =>
      if who in s.nominators { LeaveEachConserves(s, who, List(s.nominators[who].nominations.Keys)); }
    case CallNominateNew(v, amount) =>
      if NominateNew(s, who, v, amount).result.Ok? { ReserveConserves(s.ledger, who, amount); }
    case CallSwitchNomination(from, to) =>
    case CallRevokeNomination(v) =>
      hide NominatorLeavesValidator;
      LeavesValidatorConserves(s, who, v);
    case CallNominatorBondMore(v, more) =>
      if NominatorBondMore(s, who, v, more).result.Ok? { ReserveConserves(s.ledger, who, more); }
    case CallNominatorBondLess(v, less) =>
      if NominatorBondLess(s, who, v, less).result.Ok? { UnreserveConserves(s.ledger, who, less); }
  }

  lemma {:induction false} ReleaseEachConserves(s: State, x: AccountId, bonds: map<AccountId, int>, ns: seq<AccountId>)
    requires forall n :: n in ns ==> n in bonds
    ensures Conserves(s.ledger, ReleaseEach(s, x, bonds, ns).ledger)
    decreases |ns|
  {
    hide Conserves, ReleaseOne;
    if ns == [] {
      Unchanged(s.ledger);
    } else {
      var s1 := ReleaseOne(s, x, ns[0], bonds[ns[0]]);
      ReleaseOneConserves(s, x, ns[0], bonds[ns[0]]);
      ReleaseEachConserves(s1, x, bonds, ns[1..]);
      ConservesTransitive(s.ledger, s1.ledger, ReleaseEach(s, x, bonds, ns).ledger);
    }
  }

  lemma ReleaseOneConserves(s: State, x: AccountId, n: AccountId, amount: int)
    ensures Conserves(s.ledger, ReleaseOne(s, x, n, amount).ledger)
  {
    hide Conserves, Unreserve, RmNomination;
    UnreserveConserves(s.ledger, n, amount);
    if n !in s.nominators || x !in s.nominators[n].nominations {
    } else {
    }
  }

  lemma ExitOneConserves(s: State, x: AccountId)
    ensures Conserves(s.ledger, ExitOne(s, x).ledger)
  {
    hide Conserves, ReleaseEach, List, Unreserve;
    if x in s.candidates {
      var c := s.candidates[x];
      var ns := List(c.nominators.Keys);
      var s1 := ReleaseEach(s, x, c.nominators, ns);
      ReleaseEachConserves(s, x, c.nominators, ns);
      UnreserveConserves(s1.ledger, c.id, c.bond);
      ConservesTransitive(s.ledger, s1.ledger, ExitOne(s, x).ledger);
    } else {
      Unchanged(s.ledger);
    }
  }

  lemma {:induction false} ExitEachConserves(s: State, xs: seq<AccountId>)
    ensures Conserves(s.ledger, ExitEach(s, xs).ledger)
    decreases |xs|
  {
    hide Conserves, ExitOne;
    if xs == [] {
      Unchanged(s.ledger);
    } else {
      ExitOneConserves(s, xs[0]);
      ExitEachConserves(ExitOne(s, xs[0]), xs[1..]);
      ConservesTransitive(s.ledger, ExitOne(s, xs[0]).ledger, ExitEach(s, xs).ledger);
    }
  }

  // The payout.

  /** What account `a` is credited when `s` is paid for the transition into its next round. */
  ghost function Reward(s: State, a: AccountId): nat {
    var next := s.round + 1;
    if next <= cfg.bondDuration then 0
    else
      var r := next - cfg.bondDuration;
      var awards, total, issuance := AwardsOf(s.awarded, r), PointsOf(s.points, r), RoundIssuance(s, next);
      Received(s.ledger, ExposuresOf(s.atStake, r), awards, total, issuance, Payees(awards, total, issuance), a)
  }

  /** What is minted for it. */
  ghost function Mintage(s: State): nat {
    var next := s.round + 1;
    if next <= cfg.bondDuration then 0
    else
      var r := next - cfg.bondDuration;
      var awards, total, issuance := AwardsOf(s.awarded, r), PointsOf(s.points, r), RoundIssuance(s, next);
      TotalMinted(s.ledger, ExposuresOf(s.atStake, r), awards, total, issuance, Payees(awards, total, issuance))
  }

  lemma PayConserves(s: State)
    ensures var l, p := s.ledger, PayStakers(s, s.round + 1).ledger;
      && p.issuance == l.issuance + Mintage(s)
      && (forall a :: Free(p, a) == Free(l, a) + if a in l.accounts then Reward(s, a) else 0)
      && (forall a :: Reserved(p, a) == Reserved(l, a))
      && (forall a :: Held(p, a) == Held(l, a))
  {
    hide Payees, Received, TotalMinted, RoundIssuance;
    if s.round + 1 <= cfg.bondDuration {
    } else {
    }
  }

  /** A transition mints the mintage and credits the rewards; for the rest it only moves money
      between what is free and what is reserved, and books that as held. */
  lemma NewRoundConserves(s: State, chosen: set<AccountId>)
    requires Selectable(s, chosen)
    ensures var l, l' := s.ledger, NewRound(s, chosen).ledger;
      && l'.issuance == l.issuance + Mintage(s)
      && (forall a :: Free(l', a) + Reserved(l', a) == Free(l, a) + Reserved(l, a) + if a in l.accounts then Reward(s, a) else 0)
      && (forall a :: Reserved(l', a) - Held(l', a) == Reserved(l, a) - Held(l, a))
  {
    hide PayStakers, ExitEach, Reward, Mintage, Free, Reserved, Held, BestChoice, List, DueExits;
    PayConserves(s);
    var p := PayStakers(s, s.round + 1);
    ExitEachConserves(p, List(DueExits(p, s.round + 1)));
  }
}
