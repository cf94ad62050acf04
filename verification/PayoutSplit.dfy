/** Who gets what when a round is paid, from the amounts themselves: every due and every part is the
    one integer nearest to a truncated share, so the payment is determined without the functions that
    compute it. Holds on every state. */
module PayoutSplit {
  import opened Primitives
  import opened PerThing
  import opened Sums
  import opened Currency
  import opened Inflation
  import opened StakeSpec
  import opened RoundEnd
  import opened Receipts

  /** `r` is the integer nearest to the share that `part` has in `whole`, of `x`. */
  ghost predicate IsPortion(part: int, whole: int, x: int, r: int) {
    exists p :: IsShare(part, whole, p) && IsNearest(p, x, r)
  }

  lemma PortionUnique(part: int, whole: int, x: int, r: int)
    ensures r == Mul(FromRational(part, whole), x) <==> IsPortion(part, whole, x, r)
  {
    hide IsShare, IsNearest, Mul, FromRational;
    var p := FromRational(part, whole);
    ShareUnique(part, whole, p);
    MulUnique(p, x, r);
    forall q | IsShare(part, whole, q) ensures q == p {
      ShareUnique(part, whole, q);
    }
  }

  /** How one author's reward is split: the commission taken off the top, what the author gets with
      it, and what each nominator gets. */
  datatype Split = Split(commission: int, own: int, parts: map<AccountId, int>)

  /** The commission is the fee's part of the reward, unless that is negligible. */
  ghost predicate IsCommission(fee: Perbill, due: int, commission: int) {
    exists whole :: IsNearest(fee, due, whole) && commission == if whole > cfg.existentialDeposit then whole else 0
  }

  /** `y` splits the reward `due` by snapshot `x`: without nominators the author gets all of it;
      otherwise what is left after the commission goes to the author, for its own bond, and to each
      nominator in proportion to their part of the total, and the author gets the commission too. */
  ghost predicate IsSplit(x: Snapshot, due: int, y: Split) {
    if x.nominators == map[] then y == Split(0, due, map[])
    else
      && IsCommission(x.fee, due, y.commission)
      && IsPortion(x.bond, x.total, due - y.commission, y.own - y.commission)
      && y.parts.Keys == x.nominators.Keys
      && forall n :: n in x.nominators ==> IsPortion(x.nominators[n], x.total, due - y.commission, y.parts[n])
  }

  /** What an account receives of `amount`: all of it if it exists and the amount is above the
      existential deposit, and nothing otherwise. */
  ghost function Receives(l: Ledger, a: AccountId, amount: int): int {
    if amount > cfg.existentialDeposit && a in l.accounts then amount else 0
  }

  /** What account `a` gains when the reward of `v` is split by `y`. */
  ghost function Gain(l: Ledger, v: AccountId, y: Split, a: AccountId): int {
    (if a == v then Receives(l, v, y.own) else 0) + (if a in y.parts then Receives(l, a, y.parts[a]) else 0)
  }

  // One author.

  lemma CommissionUnique(x: Snapshot, due: int, c: int)
    ensures c == Commission(x, due) <==> IsCommission(x.fee, due, c)
  {
    hide IsNearest, Mul;
    MulUnique(x.fee, due, Mul(x.fee, due));
    forall whole | IsNearest(x.fee, due, whole) ensures whole == Mul(x.fee, due) {
      MulUnique(x.fee, due, whole);
    }
  }

  /** The split that the code computes. */
  ghost function SplitOf(x: Snapshot, due: int): Split {
    if x.nominators == map[] then Split(0, due, map[])
    else Split(Commission(x, due), ValidatorDue(x, due), map n | n in x.nominators :: NominatorDue(x, due, n))
  }

  /** There is exactly one split of a reward by a snapshot. */
  lemma SplitUnique(x: Snapshot, due: int, y: Split)
    ensures y == SplitOf(x, due) <==> IsSplit(x, due, y)
  {
    hide IsPortion, IsCommission, Commission, Mul, FromRational;
    if x.nominators != map[] {
      var c := Commission(x, due);
      CommissionUnique(x, due, c);
      CommissionUnique(x, due, y.commission);
      PortionUnique(x.bond, x.total, due - c, y.own - c);
      forall n | n in x.nominators
        ensures n in y.parts ==> (y.parts[n] == NominatorDue(x, due, n) <==> IsPortion(x.nominators[n], x.total, due - c, y.parts[n]))
      {
        if n in y.parts {
          PortionUnique(x.nominators[n], x.total, due - c, y.parts[n]);
        }
      }
      SplitParts(x, due, y);
    }
  }

  lemma SplitParts(x: Snapshot, due: int, y: Split)
    requires x.nominators != map[]
    ensures y == SplitOf(x, due) <==>
              && y.commission == Commission(x, due) && y.own == ValidatorDue(x, due)
              && y.parts.Keys == x.nominators.Keys
              && forall n :: n in x.nominators ==> y.parts[n] == NominatorDue(x, due, n)
  {
    hide Commission, ValidatorDue, NominatorDue;
  }

  lemma GainIsCredit(l: Ledger, x: Snapshot, v: AccountId, due: int, a: AccountId)
    ensures Gain(l, v, SplitOf(x, due), a) == Credit(l, x, v, due, a)
  {
    hide Commission, NominatorDue;
  }

  /** From `l` to `l'` each free balance rises by what the account gains from the reward of `v`; no
      account appears or goes, and no reserve moves. */
  ghost predicate Gained(l: Ledger, l': Ledger, v: AccountId, y: Split) {
    && l'.accounts.Keys == l.accounts.Keys
    && forall a :: a in l.accounts ==>
         && l'.accounts[a].free == l.accounts[a].free + Gain(l, v, y, a)
         && l'.accounts[a].reserved == l.accounts[a].reserved
  }

  /** Paying one author does what any split of its reward says. */
  lemma PaidBySplit(l: Ledger, l': Ledger, x: Snapshot, v: AccountId, due: int)
    requires AuthorPaid(l, l', x, v, due)
    ensures forall y :: IsSplit(x, due, y) ==> Gained(l, l', v, y)
  {
    hide IsSplit, Gain, Credit, SplitOf, MintedFor;
    forall y | IsSplit(x, due, y) ensures Gained(l, l', v, y) {
      SplitUnique(x, due, y);
      forall a ensures Gain(l, v, y, a) == Credit(l, x, v, due, a) {
        GainIsCredit(l, x, v, due, a);
      }
    }
  }

  // A round.

  /** `dues` gives each author its share of the issuance by points, and `splits` splits those that are
      above the existential deposit. */
  ghost predicate IsDivision(snapshots: Exposures, awards: Awards, points: nat, issuance: int,
                             dues: map<AccountId, int>, splits: map<AccountId, Split>) {
    && dues.Keys == awards.Keys
    && (forall v :: v in awards ==> IsPortion(awards[v], points, issuance, dues[v]))
    && (forall v :: v in splits <==> v in dues && dues[v] > cfg.existentialDeposit)
    && (forall v :: v in splits ==> IsSplit(Exposure(snapshots, v), dues[v], splits[v]))
  }

  /** What account `a` gains from each author's reward. */
  ghost function Gains(l: Ledger, splits: map<AccountId, Split>, a: AccountId): map<AccountId, int> {
    map v | v in splits :: Gain(l, v, splits[v], a)
  }

  /** From `l` to `l'` each free balance rises by what the account gains and the issuance by what all
      accounts gain; no account appears or goes, and no reserve moves. */
  ghost predicate Distributed(l: Ledger, l': Ledger, splits: map<AccountId, Split>) {
    && l'.accounts.Keys == l.accounts.Keys
    && (forall a :: a in l.accounts ==>
          && l'.accounts[a].free == l.accounts[a].free + Sum(Gains(l, splits, a))
          && l'.accounts[a].reserved == l.accounts[a].reserved)
    && l'.issuance == l.issuance + Sum(map a | a in l.accounts :: Sum(Gains(l, splits, a)))
    && l'.held == l.held
  }

  ghost function DuesOf(awards: Awards, points: nat, issuance: int): map<AccountId, int> {
    map v | v in awards :: AmountDue(awards[v], points, issuance)
  }

  ghost function SplitsOf(snapshots: Exposures, awards: Awards, points: nat, issuance: int): map<AccountId, Split> {
    map v | v in Payees(awards, points, issuance) :: SplitOf(Exposure(snapshots, v), AmountDue(awards[v], points, issuance))
  }

  /** There is exactly one division of a round's issuance. */
  lemma DivisionUnique(snapshots: Exposures, awards: Awards, points: nat, issuance: int,
                       dues: map<AccountId, int>, splits: map<AccountId, Split>)
    ensures dues == DuesOf(awards, points, issuance) && splits == SplitsOf(snapshots, awards, points, issuance)
            <==> IsDivision(snapshots, awards, points, issuance, dues, splits)
  {
    hide IsPortion, IsSplit, SplitOf, Exposure, Mul, FromRational;
    forall v | v in awards && v in dues
      ensures dues[v] == AmountDue(awards[v], points, issuance) <==> IsPortion(awards[v], points, issuance, dues[v])
    {
      PortionUnique(awards[v], points, issuance, dues[v]);
    }
    assert dues == DuesOf(awards, points, issuance) <==>
             dues.Keys == awards.Keys && forall v :: v in awards ==> IsPortion(awards[v], points, issuance, dues[v]);
    if dues == DuesOf(awards, points, issuance) {
      forall v | v in splits && v in dues
        ensures splits[v] == SplitOf(Exposure(snapshots, v), dues[v]) <==> IsSplit(Exposure(snapshots, v), dues[v], splits[v])
      {
        SplitUnique(Exposure(snapshots, v), dues[v], splits[v]);
      }
    }
  }

  lemma GainsAreCredits(l: Ledger, snapshots: Exposures, awards: Awards, points: nat, issuance: int, a: AccountId)
    ensures Sum(Gains(l, SplitsOf(snapshots, awards, points, issuance), a))
         == Received(l, snapshots, awards, points, issuance, Payees(awards, points, issuance), a)
  {
    hide Sum, Exposure, AmountDue, Gain, Credit, SplitOf;
    var payees := Payees(awards, points, issuance);
    var gains := Gains(l, SplitsOf(snapshots, awards, points, issuance), a);
    var credits := Credits(l, snapshots, awards, points, issuance, payees, a);
    forall v | v in payees ensures gains[v] == credits[v] {
      GainIsCredit(l, Exposure(snapshots, v), v, AmountDue(awards[v], points, issuance), a);
    }
    assert gains == credits;
  }

  lemma PaidExactly(l: Ledger, snapshots: Exposures, awards: Awards, points: nat, issuance: int)
    ensures Distributed(l, PaidLedger(l, snapshots, awards, points, issuance, Payees(awards, points, issuance)),
                        SplitsOf(snapshots, awards, points, issuance))
  {
    hide Sum, Gains, SplitsOf, Received, TotalMinted, Payees;
    var payees := Payees(awards, points, issuance);
    assert payees <= awards.Keys by { PayeesAwarded(awards, points, issuance); }
    forall a ensures Sum(Gains(l, SplitsOf(snapshots, awards, points, issuance), a))
                  == Received(l, snapshots, awards, points, issuance, payees, a)
    {
      GainsAreCredits(l, snapshots, awards, points, issuance, a);
    }
    ReceiptsAreMinted(l, snapshots, awards, points, issuance, payees);
    assert Receipts.Receipts(l, snapshots, awards, points, issuance, payees)
        == map a | a in l.accounts :: Sum(Gains(l, SplitsOf(snapshots, awards, points, issuance), a));
  }

  /** The payment for the transition into `next`, whatever the state: with the issuance fixed by the
      stake of the round paid, any division of it by the round's awards and snapshots says by how much
      each free balance and the issuance change. */
  lemma PayoutExactly(s: State, next: nat, issuance: int, dues: map<AccountId, int>, splits: map<AccountId, Split>)
    requires cfg.bondDuration < next
    requires IsIssuance(s.inflation, s.ledger.issuance, Staked(s, next - cfg.bondDuration), issuance)
    requires var round := next - cfg.bondDuration;
      IsDivision(ExposuresOf(s.atStake, round), AwardsOf(s.awarded, round), PointsOf(s.points, round), issuance, dues, splits)
    ensures Distributed(s.ledger, PayStakers(s, next).ledger, splits)
  {
    hide Distributed, IsDivision, IsIssuance, ComputeIssuance, Payees, PaidLedger, SplitsOf;
    var round := next - cfg.bondDuration;
    IssuanceByStake(s.inflation, s.ledger.issuance, Staked(s, round), issuance);
    DivisionUnique(ExposuresOf(s.atStake, round), AwardsOf(s.awarded, round), PointsOf(s.points, round), issuance, dues, splits);
    PaidExactly(s.ledger, ExposuresOf(s.atStake, round), AwardsOf(s.awarded, round), PointsOf(s.points, round), issuance);
  }

  /** Of the snapshots of `round` those of `paid` are gone; all others are as they were. */
  ghost predicate TakenOut(a: map<nat, Exposures>, a': map<nat, Exposures>, round: nat, paid: set<AccountId>) {
    && (forall v :: v in ExposuresOf(a', round) <==> v in ExposuresOf(a, round) && v !in paid)
    && (forall v :: v in ExposuresOf(a', round) && v in ExposuresOf(a, round) ==> ExposuresOf(a', round)[v] == ExposuresOf(a, round)[v])
    && (forall r: nat :: r != round ==> ExposuresOf(a', r) == ExposuresOf(a, r))
  }

  /** The same payment uses up the round's awards and the snapshots of those it pays, and no others. */
  lemma PayoutUsesUp(s: State, next: nat, issuance: int, dues: map<AccountId, int>, splits: map<AccountId, Split>)
    requires cfg.bondDuration < next
    requires IsIssuance(s.inflation, s.ledger.issuance, Staked(s, next - cfg.bondDuration), issuance)
    requires var round := next - cfg.bondDuration;
      IsDivision(ExposuresOf(s.atStake, round), AwardsOf(s.awarded, round), PointsOf(s.points, round), issuance, dues, splits)
    ensures var s', round := PayStakers(s, next), next - cfg.bondDuration;
      && s' == s.(awarded := s.awarded - {round}, atStake := s'.atStake, ledger := s'.ledger)
      && TakenOut(s.atStake, s'.atStake, round, splits.Keys)
  {
    hide IsDivision, IsIssuance, ComputeIssuance, TakenOut, Payees, PayStakers;
    var round: nat := next - cfg.bondDuration;
    IssuanceByStake(s.inflation, s.ledger.issuance, Staked(s, round), issuance);
    DivisionUnique(ExposuresOf(s.atStake, round), AwardsOf(s.awarded, round), PointsOf(s.points, round), issuance, dues, splits);
    PayeesSplit(ExposuresOf(s.atStake, round), AwardsOf(s.awarded, round), PointsOf(s.points, round), issuance);
    hide Staked, AwardsOf, PointsOf, ExposuresOf, SplitsOf;
    PaymentFrame(s, next);
  }

  lemma PayeesSplit(snapshots: Exposures, awards: Awards, points: nat, issuance: int)
    ensures SplitsOf(snapshots, awards, points, issuance).Keys == Payees(awards, points, issuance)
  {
    hide Payees, SplitOf;
  }

  lemma PaymentFrame(s: State, next: nat)
    requires cfg.bondDuration < next
    ensures var s', round := PayStakers(s, next), next - cfg.bondDuration;
      && s' == s.(awarded := s.awarded - {round}, atStake := s'.atStake, ledger := s'.ledger)
      && TakenOut(s.atStake, s'.atStake, round, Payees(AwardsOf(s.awarded, round), PointsOf(s.points, round), RoundIssuance(s, next)))
  {
    hide PaidLedger, Payees, RoundIssuance;
  }

  /** A division always exists. */
  lemma DivisionExists(snapshots: Exposures, awards: Awards, points: nat, issuance: int)
      returns (dues: map<AccountId, int>, splits: map<AccountId, Split>)
    ensures IsDivision(snapshots, awards, points, issuance, dues, splits)
  {
    dues, splits := DuesOf(awards, points, issuance), SplitsOf(snapshots, awards, points, issuance);
    DivisionUnique(snapshots, awards, points, issuance, dues, splits);
  }
}
