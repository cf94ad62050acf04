/** The pool and the exit queue are exact indexes of the candidates, on every run. */
module Indexes {
  import opened Primitives
  import opened Sums
  import opened StakeSpec
  import opened Books
  import opened Departures

  /** (v, t) is in the pool exactly when candidate v is active with total t. */
  ghost predicate PoolIndexed(c: Candidates, pool: map<AccountId, int>) {
    && (forall v :: v in pool <==> v in c && c[v].status.Active?)
    && (forall v :: v in pool && v in c ==> pool[v] == c[v].total)
  }

  /** (v, r) is in the exit queue exactly when candidate v is leaving in round r, which is ahead by
      no more than the bond duration. */
  ghost predicate ExitsIndexed(c: Candidates, exits: map<AccountId, int>, round: nat) {
    && (forall v :: v in exits <==> v in c && c[v].status.Leaving?)
    && (forall v :: v in exits && v in c && c[v].status.Leaving? ==> exits[v] == c[v].status.when)
    && (forall v :: v in exits ==> round < exits[v] <= round + cfg.bondDuration)
  }

  ghost predicate Indexed(s: State) {
    PoolIndexed(s.candidates, s.pool) && ExitsIndexed(s.candidates, s.exits, s.round)
  }

  /** The round and what belongs to rounds are the same; no dispatchable touches them. */
  ghost predicate SameRounds(s: State, s': State) {
    s' == s.(nominators := s'.nominators, candidates := s'.candidates, total := s'.total, pool := s'.pool,
             exits := s'.exits, inflation := s'.inflation, ledger := s'.ledger)
  }

  lemma PutPool(cs: Candidates, pool: map<AccountId, int>, v: AccountId, c: Candidate)
    requires PoolIndexed(cs, pool) && v in cs && c.status == cs[v].status
    ensures PoolIndexed(cs[v := c], if c.status.Active? then pool[v := c.total] else pool)
  {
  }

  lemma PutExits(cs: Candidates, exits: map<AccountId, int>, round: nat, v: AccountId, c: Candidate)
    requires ExitsIndexed(cs, exits, round) && v in cs && c.status == cs[v].status
    ensures ExitsIndexed(cs[v := c], exits, round)
  {
  }

  lemma StatusPool(cs: Candidates, pool: map<AccountId, int>, v: AccountId, c: Candidate)
    requires PoolIndexed(cs, pool)
    ensures PoolIndexed(cs[v := c], if c.status.Active? then pool[v := c.total] else pool - {v})
  {
  }

  lemma StatusExits(cs: Candidates, exits: map<AccountId, int>, round: nat, v: AccountId, c: Candidate)
    requires ExitsIndexed(cs, exits, round) && (v in cs ==> !cs[v].status.Leaving?)
    requires c.status.Leaving? ==> round < c.status.when <= round + cfg.bondDuration
    ensures ExitsIndexed(cs[v := c], if c.status.Leaving? then exits[v := c.status.when] else exits, round)
  {
  }

  lemma SamePartsIndexed(s: State, s': State)
    requires Indexed(s) && s'.candidates == s.candidates && s'.pool == s.pool && s'.exits == s.exits && s'.round == s.round
    ensures Indexed(s')
  {
  }

  /** The exits due in the next round are exactly the candidates leaving in it: removing them keeps
      both indexes exact in the next round. */
  lemma ExitsIndexedNext(s: State)
    requires Indexed(s)
    ensures forall v :: v in DueExits(s, s.round + 1) <==> v in s.candidates && s.candidates[v].status == Leaving(s.round + 1)
    ensures PoolIndexed(s.candidates - DueExits(s, s.round + 1), s.pool)
    ensures ExitsIndexed(s.candidates - DueExits(s, s.round + 1), s.exits - DueExits(s, s.round + 1), s.round + 1)
  {
    forall v ensures v in DueExits(s, s.round + 1) <==> v in s.candidates && s.candidates[v].status == Leaving(s.round + 1) {
      if v in s.candidates && s.candidates[v].status == Leaving(s.round + 1) {
        assert v in s.exits;
      }
    }
  }

  lemma PayFrame(s: State, next: nat)
    ensures var r := PayStakers(s, next);
      r == s.(awarded := r.awarded, atStake := r.atStake, ledger := r.ledger)
  {
    hide Payees, PaidLedger, RoundIssuance;
    if next <= cfg.bondDuration {
    } else {
    }
  }

  /** The state just before validators are chosen, seen from the records that exits change. */
  lemma BeforeSelectionFrame(s: State)
    ensures var due, p, r := DueExits(s, s.round + 1), PayStakers(s, s.round + 1), BeforeSelection(s);
      && r.candidates == s.candidates - due && r.exits == s.exits - due && r.pool == s.pool && r.round == s.round
      && r.awarded == p.awarded && r.atStake == p.atStake && r.points == s.points && r.staked == s.staked
      && r.validators == s.validators && r.inflation == s.inflation
      && s.total - r.total == Sum(Totals(s.candidates)) - Sum(Totals(r.candidates))
  {
    hide PayStakers, ExecuteDelayedExits, Sum, Totals;
    PayFrame(s, s.round + 1);
    ExitsFrame(PayStakers(s, s.round + 1), s.round + 1);
  }

  /** The choice of validators never meets an account that is not a candidate. */
  lemma SelectionNeverPanics(s: State, chosen: set<AccountId>)
    requires Indexed(s) && BestChoice(BeforeSelection(s).pool, chosen)
    ensures Selectable(s, chosen)
  {
    hide BeforeSelection, DueExits;
    BeforeSelectionFrame(s);
    ExitsIndexedNext(s);
  }

  /** A transition executes exactly the exits scheduled for the round it enters, and keeps the indexes. */
  lemma NewRoundIndexed(s: State, chosen: set<AccountId>)
    requires Indexed(s) && Selectable(s, chosen)
    ensures Indexed(NewRound(s, chosen))
    ensures NewRound(s, chosen).round == s.round + 1
    ensures NewRound(s, chosen).candidates == s.candidates - DueExits(s, s.round + 1)
    ensures forall v :: v in DueExits(s, s.round + 1) <==> v in s.candidates && s.candidates[v].status == Leaving(s.round + 1)
  {
    hide BeforeSelection, DueExits, BestChoice, PoolIndexed, ExitsIndexed;
    BeforeSelectionFrame(s);
    ExitsIndexedNext(s);
  }
}
