/** A candidate that leaves stays leaving until the very transition it was scheduled for removes it;
    nothing else ever removes a candidate. On every run. */
module ExitSchedule {
  import opened Primitives
  import opened Currency
  import opened StakeSpec
  import opened Indexes
  import opened Calls
  import opened Rounds
  import opened AuthorDraw
  import opened Chain
  import opened EveryRun

  ghost predicate EntersRound(c: Chain, e: Event) {
    e.Finalize? && c.block % cfg.blocksPerRound == 0
  }

  /** From `c` to `c'`, entering a round or not: the round moves accordingly, a candidate disappears
      exactly when the round it was leaving in is entered, and every other one leaving still is. */
  ghost predicate ExitsOnTime(s: State, s': State, enters: bool) {
    && s'.round == s.round + (if enters then 1 else 0)
    && (forall v :: v in s.candidates ==>
          (v !in s'.candidates <==> enters && s.candidates[v].status == Leaving(s'.round)))
    && (forall v :: v in s.candidates && v in s'.candidates && s.candidates[v].status.Leaving? ==>
          s'.candidates[v].status == s.candidates[v].status)
  }

  lemma TransactExits(c: Chain, who: AccountId, call: Call)
    requires Kept(c)
    ensures ExitsOnTime(c.stake, Dispatch(c.stake, who, call).state, false)
  {
    hide Kept, Dispatch;
    DispatchStays(c.stake, who, call);
    TransactRounds(c, who, call);
  }

  lemma NewRoundExits(s: State, chosen: set<AccountId>)
    requires Indexed(s) && Selectable(s, chosen)
    ensures ExitsOnTime(s, NewRound(s, chosen), true)
  {
    hide Indexed, Selectable, NewRound, DueExits;
    NewRoundIndexed(s, chosen);
  }

  lemma SameExits(s: State, s': State)
    requires s'.round == s.round && s'.candidates == s.candidates
    ensures ExitsOnTime(s, s', false)
  {
  }

  lemma StepExits(c: Chain, e: Event)
    requires Kept(c) && Enabled(c, e)
    ensures ExitsOnTime(c.stake, Next(c, e).stake, EntersRound(c, e))
  {
    hide RoundsKept, Clock, Indexed, ExitsOnTime, Selectable, NewRound, Dispatch, MayAuthor, OthersActed;
    match e
    case Transact(who, call) => TransactExits(c, who, call);
    case Finalize(chosen) =>
      if EntersRound(c, e) {
        NewRoundExits(c.stake, chosen);
      } else {
        SameExits(c.stake, Next(c, e).stake);
      }
    case SetAuthor(a, random, relay) =>
      if AuthorAccepted(c, a, random, relay) {
        SameExits(c.stake, NoteAuthor(c.stake, a));
      } else {
        SameExits(c.stake, c.stake);
      }
    case Initialize => SameExits(c.stake, c.stake);
    case SetEligible(_) => SameExits(c.stake, c.stake);
    case Others(l) => SameExits(c.stake, c.stake.(ledger := l));
  }

  lemma TransactRounds(c: Chain, who: AccountId, call: Call)
    requires Kept(c)
    ensures SameRounds(c.stake, Dispatch(c.stake, who, call).state)
  {
    hide Indexed, RoundsKept, Clock, Dispatch, SameRounds;
    DispatchIndexed(c.stake, who, call);
  }

  lemma {:induction false} RoundsOnlyGrow(r: Run, i: nat, j: nat)
    requires IsRun(r) && i <= j <= |r.events|
    ensures At(r, i).stake.round <= At(r, j).stake.round
    decreases j - i
  {
    hide Kept, Next, Enabled, EntersRound;
    if i < j {
      RoundsOnlyGrow(r, i, j - 1);
      AlwaysKept(r, j - 1);
      StepAt(r, j - 1);
      StepExits(At(r, j - 1), r.events[j - 1]);
    }
  }

  /** Leaving is never undone: until its round comes, the candidate stays and stays leaving. */
  lemma {:induction false} LeavingIsNeverUndone(r: Run, i: nat, j: nat, v: AccountId, when: int)
    requires IsRun(r) && i <= j <= |r.events|
    requires v in At(r, i).stake.candidates && At(r, i).stake.candidates[v].status == Leaving(when)
    requires At(r, j).stake.round < when
    ensures v in At(r, j).stake.candidates && At(r, j).stake.candidates[v].status == Leaving(when)
    decreases j - i
  {
    hide Kept, Next, Enabled;
    if i < j {
      RoundsOnlyGrow(r, j - 1, j);
      LeavingIsNeverUndone(r, i, j - 1, v, when);
      AlwaysKept(r, j - 1);
      StepAt(r, j - 1);
      StepExits(At(r, j - 1), r.events[j - 1]);
    }
  }

  /** Every exit in the queue is ahead by at most the bond duration, and a candidate disappears at
      exactly the step into the round of its exit. */
  lemma RemovedExactlyOnTime(r: Run, i: nat, v: AccountId)
    requires IsRun(r) && i < |r.events| && v in At(r, i).stake.candidates
    ensures v in At(r, i).stake.exits <==> At(r, i).stake.candidates[v].status.Leaving?
    ensures v in At(r, i).stake.exits ==>
              At(r, i).stake.round < At(r, i).stake.exits[v] <= At(r, i).stake.round + cfg.bondDuration
    ensures v !in At(r, i + 1).stake.candidates
            <==> v in At(r, i).stake.exits && EntersRound(At(r, i), r.events[i]) && At(r, i + 1).stake.round == At(r, i).stake.exits[v]
  {
    hide RoundsKept, Clock, Next, Enabled, EntersRound, PoolIndexed;
    AlwaysKept(r, i);
    StepAt(r, i);
    StepExits(At(r, i), r.events[i]);
  }
}
