/** The cap on the nominators of a candidate: every step of every run keeps it, except a switch that
    is accepted and inserts the caller into a candidate that is full. */
module NominatorCap {
  import opened Primitives
  import opened StakeSpec
  import opened Books
  import opened Solvency
  import opened Indexes
  import opened Calls
  import opened Chain
  import opened EveryRun
  import opened ExitSchedule

  ghost predicate WithinCap(c: Candidates) {
    forall v :: v in c ==> |c[v].nominators| <= cfg.maxNominatorsPerValidator
  }

  /** The switch is accepted and its target, already full, does not list the caller. The code then
      inserts the caller, unless the caller's own record has a positive bond with the target, which
      it takes for a nomination to update. */
  ghost predicate Overfills(s: State, acc: AccountId, from: AccountId, to: AccountId) {
    && SwitchNomination(s, acc, from, to).result.Ok?
    && !Backs(s.candidates, to, acc)
    && cfg.maxNominatorsPerValidator <= |s.candidates[to].nominators|
    && !(Nominates(s.nominators, acc, to) && 0 < s.nominators[acc].nominations[to])
  }

  ghost predicate Overfilling(c: Chain, e: Event) {
    e.Transact? && e.call.CallSwitchNomination? && Overfills(c.stake, e.who, e.call.from, e.call.to)
  }

  lemma RoomyWithin(c: Candidates, c': Candidates)
    requires WithinCap(c) && Roomy(c, c')
    ensures WithinCap(c')
  {
  }

  /** What an accepted switch does to the numbers of nominators. */
  lemma SwitchCounts(s: State, acc: AccountId, from: AccountId, to: AccountId)
    requires SwitchNomination(s, acc, from, to).result.Ok?
    ensures var c, c' := s.candidates, SwitchNomination(s, acc, from, to).state.candidates;
      var inserts := !Backs(c, to, acc) && !(Nominates(s.nominators, acc, to) && 0 < s.nominators[acc].nominations[to]);
      && from in c && to in c && from != to && c' == c[from := c'[from]][to := c'[to]]
      && |c'[from].nominators| <= |c[from].nominators|
      && |c'[to].nominators| == |c[to].nominators| + if inserts then 1 else 0
  {
    var n, c := s.nominators[acc], s.candidates;
    var amount, swapped := SwapNomination(n, from, to).nominations[to], n.nominations[from];
    WithoutOne(c[from].nominators, acc);
    WithOne(c[to].nominators, acc, amount);
    WithOne(c[to].nominators, acc, swapped);
    assert amount > swapped <==> to in n.nominations && 0 < n.nominations[to];
  }

  lemma SwitchWithinCapExactly(s: State, acc: AccountId, from: AccountId, to: AccountId)
    requires WithinCap(s.candidates)
    ensures WithinCap(SwitchNomination(s, acc, from, to).state.candidates) <==> !Overfills(s, acc, from, to)
  {
    if SwitchNomination(s, acc, from, to).result.Ok? {
      SwitchCounts(s, acc, from, to);
      hide SwitchNomination;
      var c' := SwitchNomination(s, acc, from, to).state.candidates;
      assert |c'[to].nominators| <= cfg.maxNominatorsPerValidator <==> !Overfills(s, acc, from, to);
    } else {
      assert SwitchNomination(s, acc, from, to).state == s;
    }
  }

  lemma TransactWithinCapExactly(c: Chain, who: AccountId, call: Call)
    requires WithinCap(c.stake.candidates)
    ensures WithinCap(Dispatch(c.stake, who, call).state.candidates) <==> !Overfilling(c, Transact(who, call))
  {
    hide WithinCap, SwitchNomination, Overfills, Tame, Roomy;
    if call.CallSwitchNomination? {
      SwitchWithinCapExactly(c.stake, who, call.from, call.to);
    } else if Governance(call) {
      GovernanceFrame(c.stake, who, call);
    } else {
      hide Dispatch;
      DispatchTame(c.stake, who, call);
      RoomyWithin(c.stake.candidates, Dispatch(c.stake, who, call).state.candidates);
    }
  }

  lemma FewerWithin(c: Candidates, gone: set<AccountId>)
    requires WithinCap(c)
    ensures WithinCap(c - gone)
  {
  }

  /** From any state within the cap, clean or not, a step stays within it exactly when it is not such
      a switch. */
  lemma StepWithinCapExactly(c: Chain, e: Event)
    requires Enabled(c, e) && WithinCap(c.stake.candidates)
    ensures WithinCap(Next(c, e).stake.candidates) <==> !Overfilling(c, e)
  {
    hide WithinCap, Dispatch, Overfills, BeforeSelection, BestChoice, DueExits, AuthorAccepted;
    match e
    case Transact(who, call) => TransactWithinCapExactly(c, who, call);
    case Finalize(chosen) =>
      if EntersRound(c, e) {
        BeforeSelectionFrame(c.stake);
        FewerWithin(c.stake.candidates, DueExits(c.stake, c.stake.round + 1));
      }
    case SetAuthor(_, _, _) =>
    case Initialize =>
    case SetEligible(_) =>
    case Others(_) =>
  }

  lemma StartWithinCap(g: Genesis)
    requires GenesisAccepted(g)
    ensures WithinCap(Start(g).stake.candidates)
  {
    hide JoinAll, BestChoice, Tame, Roomy;
    JoinAllKeeps(Empty(g), g.stakers);
    RoomyWithin(map[], JoinAll(Empty(g), g.stakers).value.candidates);
  }

  /** On every run, clean or not: as long as no accepted switch has inserted its caller into a full
      candidate, no candidate has more nominators than the cap. */
  lemma {:induction false} AlwaysWithinCap(r: Run, i: nat)
    requires IsRun(r) && i <= |r.events|
    requires forall k :: 0 <= k < i ==> !Overfilling(At(r, k), r.events[k])
    ensures WithinCap(At(r, i).stake.candidates)
    decreases i
  {
    hide Enabled, Next, Start, GenesisAccepted, WithinCap, Overfilling;
    PrefixIsRun(r, i);
    if i == 0 {
      StartWithinCap(r.genesis);
    } else {
      AlwaysWithinCap(r, i - 1);
      StepAt(r, i - 1);
      StepWithinCapExactly(At(r, i - 1), r.events[i - 1]);
    }
  }

  /** And the first such switch takes the candidate over the cap: a run stays within the cap all along
      exactly when it has none. */
  lemma WithinCapExactly(r: Run)
    requires IsRun(r)
    ensures (forall i: nat :: i <= |r.events| ==> WithinCap(At(r, i).stake.candidates))
            <==> (forall k: nat :: k < |r.events| ==> !Overfilling(At(r, k), r.events[k]))
  {
    hide Enabled, Next, WithinCap, Overfilling;
    if forall k: nat :: k < |r.events| ==> !Overfilling(At(r, k), r.events[k]) {
      forall i: nat | i <= |r.events| ensures WithinCap(At(r, i).stake.candidates) {
        AlwaysWithinCap(r, i);
      }
    }
    if forall i: nat :: i <= |r.events| ==> WithinCap(At(r, i).stake.candidates) {
      forall k: nat | k < |r.events| ensures !Overfilling(At(r, k), r.events[k]) {
        StepAt(r, k);
        StepWithinCapExactly(At(r, k), r.events[k]);
      }
    }
  }

  /** From solvent books the code accepts every switch of a nominator into a candidate that it does
      not nominate yet, full or not; into a full one it breaks the cap. */
  lemma FullCandidateAccepts(s: State, acc: AccountId, from: AccountId, to: AccountId)
    requires Solvent(s) && from != to && to in s.candidates
    requires Nominates(s.nominators, acc, from) && !Nominates(s.nominators, acc, to)
    ensures SwitchNomination(s, acc, from, to).result.Ok?
    ensures cfg.maxNominatorsPerValidator <= |s.candidates[to].nominators| ==>
              !WithinCap(SwitchNomination(s, acc, from, to).state.candidates)
  {
    hide LocalSums, Floors, Covered;
    assert Backs(s.candidates, from, acc) && !Backs(s.candidates, to, acc);
    hide Mirror;
    assert SwitchNomination(s, acc, from, to).result.Ok? by {
      hide PutCandidate, SwapNomination, RmNominator, AddNominator, UpdateNominator;
    }
    hide SwitchNomination, Solvent;
    SwitchCounts(s, acc, from, to);
  }
}
