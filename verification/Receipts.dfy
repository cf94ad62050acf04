/** Everything minted by a payout is received by somebody, and everything received was minted. */
module Receipts {
  import opened Primitives
  import opened Sums
  import opened Currency
  import opened StakeSpec
  import opened RoundEnd

  /** Maps that agree where they share a key, and are zero elsewhere, have the same sum. */
  lemma {:induction false} SumSupport(a: map<AccountId, int>, b: map<AccountId, int>)
    requires forall k :: k in a && k in b ==> a[k] == b[k]
    requires forall k :: k in a && k !in b ==> a[k] == 0
    requires forall k :: k in b && k !in a ==> b[k] == 0
    ensures Sum(a) == Sum(b)
    decreases |a|
  {
    if a == map[] {
      SumConstant(b, 0);
    } else {
      var k := Pick(a);
      SumSupport(a - {k}, b - {k});
      if k in b {
        SumRemove(b, k);
      } else {
        assert b - {k} == b;
      }
    }
  }

  ghost function AuthorPart(l: Ledger, x: Snapshot, v: AccountId, due: int): map<AccountId, int> {
    map a | a in l.accounts :: if a == v then Minted(l, v, ValidatorDue(x, due)) else 0
  }

  ghost function NominatorPart(l: Ledger, x: Snapshot, due: int): map<AccountId, int> {
    map a | a in l.accounts :: if a in x.nominators then Minted(l, a, NominatorDue(x, due, a)) else 0
  }

  ghost function CreditsOf(l: Ledger, x: Snapshot, v: AccountId, due: int): map<AccountId, int> {
    map a | a in l.accounts :: Credit(l, x, v, due, a)
  }

  lemma AuthorPartSum(l: Ledger, x: Snapshot, v: AccountId, due: int)
    ensures Sum(AuthorPart(l, x, v, due)) == Minted(l, v, ValidatorDue(x, due))
  {
    hide ValidatorDue, Sum;
    var minted := Minted(l, v, ValidatorDue(x, due));
    SumOne(v, minted);
    SumSupport(AuthorPart(l, x, v, due), map[v := minted]);
  }

  lemma NominatorPartSum(l: Ledger, x: Snapshot, due: int)
    ensures Sum(NominatorPart(l, x, due)) == Sum(NominatorsMinted(l, x, due))
  {
    hide NominatorDue, Sum;
    SumSupport(NominatorPart(l, x, due), NominatorsMinted(l, x, due));
  }

  /** What is minted for one author's blocks is credited to its accounts. */
  lemma CreditsAreMinted(l: Ledger, x: Snapshot, v: AccountId, due: int)
    ensures Sum(CreditsOf(l, x, v, due)) == MintedFor(l, x, v, due)
  {
    hide ValidatorDue, NominatorDue, Minted, Sum;
    AuthorPartSum(l, x, v, due);
    NominatorPartSum(l, x, due);
    SumAdd(AuthorPart(l, x, v, due), NominatorPart(l, x, due), CreditsOf(l, x, v, due));
  }

  ghost function Receipts(l: Ledger, exposures: Exposures, awards: Awards, total: nat, issuance: int,
                          payees: set<AccountId>): map<AccountId, int>
    requires payees <= awards.Keys
  {
    map a | a in l.accounts :: Received(l, exposures, awards, total, issuance, payees, a)
  }

  lemma ReceiptsStep(l: Ledger, exposures: Exposures, awards: Awards, total: nat, issuance: int,
                     rest: set<AccountId>, v: AccountId)
    requires rest <= awards.Keys && v in awards && v !in rest
    ensures Sum(Receipts(l, exposures, awards, total, issuance, rest + {v}))
         == Sum(Receipts(l, exposures, awards, total, issuance, rest))
            + MintedFor(l, Exposure(exposures, v), v, AmountDue(awards[v], total, issuance))
  {
    hide Received, Credit, MintedFor, Exposure, AmountDue, Sum;
    var x, due := Exposure(exposures, v), AmountDue(awards[v], total, issuance);
    var before, credits := Receipts(l, exposures, awards, total, issuance, rest), CreditsOf(l, x, v, due);
    var after := Receipts(l, exposures, awards, total, issuance, rest + {v});
    forall a | a in l.accounts ensures after[a] == before[a] + credits[a] {
      ReceivedStep(l, exposures, awards, total, issuance, rest, v, a);
    }
    SumAdd(before, credits, after);
    CreditsAreMinted(l, x, v, due);
  }

  /** The receipts of all accounts sum to what the payout mints. */
  lemma {:induction false} ReceiptsAreMinted(l: Ledger, exposures: Exposures, awards: Awards, total: nat, issuance: int,
                                             payees: set<AccountId>)
    requires payees <= awards.Keys
    ensures Sum(Receipts(l, exposures, awards, total, issuance, payees))
         == TotalMinted(l, exposures, awards, total, issuance, payees)
    decreases |payees|
  {
    if payees == {} {
      NobodyReceives(l, exposures, awards, total, issuance);
    } else {
      hide Receipts, TotalMinted, MintedFor, Exposure, AmountDue, Sum;
      var v :| v in payees;
      var rest := payees - {v};
      assert payees == rest + {v};
      ReceiptsAreMinted(l, exposures, awards, total, issuance, rest);
      ReceiptsStep(l, exposures, awards, total, issuance, rest, v);
      MintedStep(l, exposures, awards, total, issuance, rest, v);
    }
  }

  lemma NobodyReceives(l: Ledger, exposures: Exposures, awards: Awards, total: nat, issuance: int)
    ensures Sum(Receipts(l, exposures, awards, total, issuance, {})) == 0
    ensures TotalMinted(l, exposures, awards, total, issuance, {}) == 0
  {
    assert Mints(l, exposures, awards, total, issuance, {}) == map[];
    forall a | a in l.accounts ensures Receipts(l, exposures, awards, total, issuance, {})[a] == 0 {
      assert Credits(l, exposures, awards, total, issuance, {}, a) == map[];
    }
    SumConstant(Receipts(l, exposures, awards, total, issuance, {}), 0);
  }

  ghost function FreeBalances(l: Ledger): map<AccountId, int> {
    map a | a in l.accounts :: l.accounts[a].free
  }

  /** Payment adds to the free balances of all accounts together exactly what it adds to the issuance. */
  lemma PaymentConserves(s: State, next: nat)
    ensures var l, l' := s.ledger, PayStakers(s, next).ledger;
      Sum(FreeBalances(l')) - Sum(FreeBalances(l)) == l'.issuance - l.issuance
  {
    hide Payees, Received, TotalMinted, RoundIssuance, Sum;
    if cfg.bondDuration < next {
      var r := next - cfg.bondDuration;
      var l, l' := s.ledger, PayStakers(s, next).ledger;
      var awards, total, issuance := AwardsOf(s.awarded, r), PointsOf(s.points, r), RoundIssuance(s, next);
      var exposures, payees := ExposuresOf(s.atStake, r), Payees(awards, total, issuance);
      assert payees <= awards.Keys by { PayeesAwarded(awards, total, issuance); }
      ReceiptsAreMinted(l, exposures, awards, total, issuance, payees);
      SumAdd(FreeBalances(l), Receipts(l, exposures, awards, total, issuance, payees), FreeBalances(l'));
    }
  }

  lemma PayeesAwarded(awards: Awards, total: nat, issuance: int)
    ensures Payees(awards, total, issuance) <= awards.Keys
  {
  }
}
