/** The two records of who has bonded what with whom, and the one elementary change to them that
    every nominator-side call comes down to. */
module Books {
  import opened Primitives
  import opened Sums
  import opened StakeSpec

  /** Candidate `v`'s record holds a bond of `n`. */
  ghost predicate Backs(c: Candidates, v: AccountId, n: AccountId) {
    v in c && n in c[v].nominators
  }

  /** Nominator `n`'s record holds a bond with `v`. */
  ghost predicate Nominates(ns: Nominators, n: AccountId, v: AccountId) {
    n in ns && v in ns[n].nominations
  }

  /** The two records hold the same bonds, with the same amounts. */
  ghost predicate Mirror(c: Candidates, ns: Nominators) {
    && (forall v, n :: Backs(c, v, n) <==> Nominates(ns, n, v))
    && (forall v, n :: Backs(c, v, n) && Nominates(ns, n, v) ==> c[v].nominators[n] == ns[n].nominations[v])
  }

  /** A candidate's total is its bond plus its nominators' amounts, a nominator's the sum of its nominations. */
  ghost predicate LocalSums(c: Candidates, ns: Nominators) {
    && (forall v :: v in c ==> c[v].total == c[v].bond + Sum(c[v].nominators))
    && (forall n :: n in ns ==> ns[n].total == Sum(ns[n].nominations))
  }

  const NOMINATIONS_CAP: nat := if cfg.maxValidatorsPerNominator == 0 then 1 else cfg.maxValidatorsPerNominator

  ghost predicate BondsAboveFloor(c: Candidates) {
    forall v :: v in c ==> cfg.minValidatorStk <= c[v].bond && c[v].fee <= cfg.maxFee
  }

  ghost predicate NominationsAboveFloor(ns: Nominators) {
    forall n, v :: Nominates(ns, n, v) ==> cfg.minNomination <= ns[n].nominations[v]
  }

  /** Every nominator has at least one nomination and at most the cap. */
  ghost predicate NominationsInRange(ns: Nominators) {
    forall n :: n in ns ==> 1 <= |ns[n].nominations| <= NOMINATIONS_CAP
  }

  ghost predicate Floors(c: Candidates, ns: Nominators) {
    BondsAboveFloor(c) && NominationsAboveFloor(ns) && NominationsInRange(ns)
  }

  /** Records are filed under their own id, and nobody is both a candidate and a nominator. */
  ghost predicate Roles(c: Candidates, ns: Nominators) {
    && (forall v :: v in c ==> c[v].id == v)
    && (forall a :: a in c ==> a !in ns)
  }

  ghost predicate Sound(c: Candidates, ns: Nominators) {
    Mirror(c, ns) && LocalSums(c, ns) && Floors(c, ns) && Roles(c, ns)
  }

  /** What the pallet owes back to `a`: its bond as a candidate or its total as a nominator. */
  function Owed(c: Candidates, ns: Nominators, a: AccountId): int {
    if a in c then c[a].bond else if a in ns then ns[a].total else 0
  }

  ghost function Totals(c: Candidates): map<AccountId, int> {
    map v | v in c :: c[v].total
  }

  lemma TotalsUpdate(c: Candidates, v: AccountId, x: Candidate)
    ensures Sum(Totals(c[v := x])) == Sum(Totals(c)) + x.total - (if v in c then c[v].total else 0)
  {
    assert Totals(c[v := x]) == Totals(c)[v := x.total];
    SumUpdate(Totals(c), v, x.total);
  }

  lemma TotalsRemove(c: Candidates, v: AccountId)
    requires v in c
    ensures Sum(Totals(c - {v})) == Sum(Totals(c)) - c[v].total
  {
    assert Totals(c - {v}) == Totals(c) - {v};
    SumRemove(Totals(c), v);
  }

  // One bond set to an amount, on each side; zero removes it.

  function SetIn(m: map<AccountId, int>, k: AccountId, amount: nat): map<AccountId, int> {
    if amount == 0 then m - {k} else m[k := amount]
  }

  function Backed(c: Candidate, n: AccountId, amount: nat): Candidate {
    c.(nominators := SetIn(c.nominators, n, amount), total := c.total + amount - Get(c.nominators, n))
  }

  function SetBacking(c: Candidates, v: AccountId, n: AccountId, amount: nat): Candidates
    requires v in c
  {
    c[v := Backed(c[v], n, amount)]
  }

  function Nomination(ns: Nominators, n: AccountId): Nominator {
    if n in ns then ns[n] else Nominator(map[], 0)
  }

  function Nominated(x: Nominator, v: AccountId, amount: nat): Nominator {
    Nominator(SetIn(x.nominations, v, amount), x.total + amount - Get(x.nominations, v))
  }

  /** A nominator with no bond left has no record. */
  function SetNomination(ns: Nominators, n: AccountId, v: AccountId, amount: nat): Nominators {
    var x := Nominated(Nomination(ns, n), v, amount);
    if x.nominations == map[] then ns - {n} else ns[n := x]
  }

  lemma SumSetIn(m: map<AccountId, int>, k: AccountId, amount: nat)
    ensures Sum(SetIn(m, k, amount)) == Sum(m) + amount - Get(m, k)
  {
    if amount == 0 {
      if k in m { SumRemove(m, k); } else { assert m - {k} == m; }
    } else {
      SumUpdate(m, k, amount);
    }
  }

  /** The amounts and the room that the code's checks leave for a bond of `n` with `v`. */
  ghost predicate MaySet(c: Candidates, ns: Nominators, v: AccountId, n: AccountId, amount: nat) {
    && v in c
    && n !in c
    && (amount == 0 || cfg.minNomination <= amount)
    && (amount == 0 || Nominates(ns, n, v) || |Nomination(ns, n).nominations| < NOMINATIONS_CAP)
  }

  lemma SetMirror(c: Candidates, ns: Nominators, v: AccountId, n: AccountId, amount: nat)
    requires Mirror(c, ns) && v in c
    ensures Mirror(SetBacking(c, v, n, amount), SetNomination(ns, n, v, amount))
  {
    var c', ns' := SetBacking(c, v, n, amount), SetNomination(ns, n, v, amount);
    forall w, m
      ensures Backs(c', w, m) <==> if w == v && m == n then amount != 0 else Backs(c, w, m)
    {
    }
    forall w, m
      ensures Nominates(ns', m, w) <==> if w == v && m == n then amount != 0 else Nominates(ns, m, w)
    {
      NominatesAfterSet(ns, n, v, amount, m, w);
    }
    forall w, m | Backs(c', w, m) && Nominates(ns', m, w)
      ensures c'[w].nominators[m] == ns'[m].nominations[w]
    {
      if w != v || m != n {
        assert Backs(c, w, m) && Nominates(ns, m, w);
      }
    }
  }

  lemma NominatesAfterSet(ns: Nominators, n: AccountId, v: AccountId, amount: nat, m: AccountId, w: AccountId)
    ensures Nominates(SetNomination(ns, n, v, amount), m, w)
            <==> if w == v && m == n then amount != 0 else Nominates(ns, m, w)
  {
    var x := Nominated(Nomination(ns, n), v, amount);
    assert w in x.nominations <==> if w == v then amount != 0 else w in Nomination(ns, n).nominations;
  }

  lemma SetLocalSums(c: Candidates, ns: Nominators, v: AccountId, n: AccountId, amount: nat)
    requires LocalSums(c, ns) && v in c
    ensures LocalSums(SetBacking(c, v, n, amount), SetNomination(ns, n, v, amount))
  {
    SumSetIn(c[v].nominators, n, amount);
    SumSetIn(Nomination(ns, n).nominations, v, amount);
    assert Nomination(ns, n).total == Sum(Nomination(ns, n).nominations);
  }

  lemma SetFloors(c: Candidates, ns: Nominators, v: AccountId, n: AccountId, amount: nat)
    requires Floors(c, ns) && MaySet(c, ns, v, n, amount)
    ensures Floors(SetBacking(c, v, n, amount), SetNomination(ns, n, v, amount))
  {
    hide NominationsAboveFloor, NominationsInRange;
    SetAmounts(c, ns, v, n, amount);
    SetSizes(c, ns, v, n, amount);
  }

  lemma SetAmounts(c: Candidates, ns: Nominators, v: AccountId, n: AccountId, amount: nat)
    requires NominationsAboveFloor(ns) && MaySet(c, ns, v, n, amount)
    ensures NominationsAboveFloor(SetNomination(ns, n, v, amount))
  {
    var ns' := SetNomination(ns, n, v, amount);
    forall m, w | Nominates(ns', m, w)
      ensures cfg.minNomination <= ns'[m].nominations[w]
    {
      NominatesAfterSet(ns, n, v, amount, m, w);
      assert (m == n && w == v) || Nominates(ns, m, w);
    }
  }

  lemma SetSizes(c: Candidates, ns: Nominators, v: AccountId, n: AccountId, amount: nat)
    requires NominationsInRange(ns) && MaySet(c, ns, v, n, amount)
    ensures NominationsInRange(SetNomination(ns, n, v, amount))
  {
    var was := Nomination(ns, n).nominations;
    SetSize(was, v, amount);
    assert Nominates(ns, n, v) <==> v in was;
    assert |was| <= NOMINATIONS_CAP;
  }

  lemma SetSize(m: map<AccountId, int>, k: AccountId, amount: nat)
    ensures |SetIn(m, k, amount)| == |m| - (if k in m then 1 else 0) + if amount == 0 then 0 else 1
    ensures SetIn(m, k, amount) != map[] ==> 1 <= |SetIn(m, k, amount)|
  {
    assert SetIn(m, k, amount).Keys == if amount == 0 then m.Keys - {k} else m.Keys + {k};
  }

  lemma SetSound(c: Candidates, ns: Nominators, v: AccountId, n: AccountId, amount: nat)
    requires Sound(c, ns) && MaySet(c, ns, v, n, amount)
    ensures Sound(SetBacking(c, v, n, amount), SetNomination(ns, n, v, amount))
  {
    hide Mirror, LocalSums, Floors;
    SetMirror(c, ns, v, n, amount);
    SetLocalSums(c, ns, v, n, amount);
    SetFloors(c, ns, v, n, amount);
  }

  /** Setting a bond changes what is owed to the nominator by the difference, and nobody else's;
      the candidate totals move by the same difference. */
  lemma SetOwed(c: Candidates, ns: Nominators, v: AccountId, n: AccountId, amount: nat, a: AccountId)
    requires Sound(c, ns) && MaySet(c, ns, v, n, amount)
    ensures var c', ns' := SetBacking(c, v, n, amount), SetNomination(ns, n, v, amount);
      Owed(c', ns', a) == Owed(c, ns, a) + if a == n then amount - Get(c[v].nominators, n) else 0
    ensures Sum(Totals(SetBacking(c, v, n, amount))) == Sum(Totals(c)) + amount - Get(c[v].nominators, n)
  {
    hide Mirror, LocalSums, Floors, Sum, Totals, SetNomination;
    TotalsUpdate(c, v, Backed(c[v], n, amount));
    SetNominationTotal(c, ns, v, n, amount);
    SetNominationOthers(ns, v, n, amount, a);
    MirrorGet(c, ns, v, n);
    assert Owed(c, ns, a) == if a in c then c[a].bond else Nomination(ns, a).total;
  }

  lemma SetNominationOthers(ns: Nominators, v: AccountId, n: AccountId, amount: nat, a: AccountId)
    ensures a != n ==> Nomination(SetNomination(ns, n, v, amount), a) == Nomination(ns, a)
  {
  }

  lemma SetNominationTotal(c: Candidates, ns: Nominators, v: AccountId, n: AccountId, amount: nat)
    requires LocalSums(c, ns)
    ensures Nomination(SetNomination(ns, n, v, amount), n).total
            == Nomination(ns, n).total + amount - Get(Nomination(ns, n).nominations, v)
  {
    SumSetIn(Nomination(ns, n).nominations, v, amount);
    assert Nomination(ns, n).total == Sum(Nomination(ns, n).nominations);
  }

  lemma MirrorGet(c: Candidates, ns: Nominators, v: AccountId, n: AccountId)
    requires Mirror(c, ns) && v in c
    ensures Get(c[v].nominators, n) == Get(Nomination(ns, n).nominations, v)
  {
    assert Backs(c, v, n) <==> Nominates(ns, n, v);
  }

  // Changes on the candidate side only.

  lemma SameBackers(c: Candidates, c': Candidates, ns: Nominators)
    requires Mirror(c, ns)
    requires forall v, n :: Backs(c', v, n) <==> Backs(c, v, n)
    requires forall v, n :: Backs(c', v, n) ==> c'[v].nominators[n] == c[v].nominators[n]
    ensures Mirror(c', ns)
  {
  }

  lemma JoinSound(c: Candidates, ns: Nominators, v: AccountId, fee: Perbill, bond: nat)
    requires Sound(c, ns) && v !in c && v !in ns && fee <= cfg.maxFee && cfg.minValidatorStk <= bond
    ensures Sound(c[v := Candidate(v, fee, bond, map[], bond, Active)], ns)
  {
    var x := Candidate(v, fee, bond, map[], bond, Active);
    JoinMirror(c, ns, v, x);
    assert Sum(x.nominators) == 0;
  }

  lemma JoinMirror(c: Candidates, ns: Nominators, v: AccountId, x: Candidate)
    requires Mirror(c, ns) && v !in c && x.nominators == map[]
    ensures Mirror(c[v := x], ns)
  {
    forall w, n ensures Backs(c[v := x], w, n) <==> Backs(c, w, n) {
    }
    SameBackers(c, c[v := x], ns);
  }

  /** A candidate's own bond and status can change freely above the floor. */
  lemma OwnBondSound(c: Candidates, ns: Nominators, v: AccountId, bond: int, status: Status)
    requires Sound(c, ns) && v in c && cfg.minValidatorStk <= bond
    ensures Sound(c[v := c[v].(bond := bond, total := c[v].total + bond - c[v].bond, status := status)], ns)
  {
    var c' := c[v := c[v].(bond := bond, total := c[v].total + bond - c[v].bond, status := status)];
    SameBackers(c, c', ns);
  }

  /** A candidate that nobody backs any more can be removed. */
  lemma RemoveSound(c: Candidates, ns: Nominators, v: AccountId)
    requires Sound(c, ns) && v in c && c[v].nominators == map[]
    ensures Sound(c - {v}, ns)
    ensures Owed(c, ns, v) == c[v].bond && Owed(c - {v}, ns, v) == 0
  {
    var c' := c - {v};
    SameBackers(c, c', ns);
  }

  /** The consequences of soundness that rule out every underflow: amounts are not negative, and
      each total covers each of its parts. */
  lemma SoundBounds(c: Candidates, ns: Nominators)
    requires Sound(c, ns)
    ensures forall v, n :: Backs(c, v, n) ==> 0 < c[v].nominators[n] <= c[v].total - c[v].bond
    ensures forall n, v :: Nominates(ns, n, v) ==> 0 < ns[n].nominations[v] <= ns[n].total
    ensures forall v :: v in c ==> 0 <= c[v].bond <= c[v].total
    ensures forall n :: n in ns ==> 0 < ns[n].total
  {
    forall v, n | Backs(c, v, n) ensures 0 < c[v].nominators[n] <= c[v].total - c[v].bond {
      BackersPositive(c, ns, v);
      SumBoundsPart(c[v].nominators, n);
    }
    forall n, v | Nominates(ns, n, v) ensures 0 < ns[n].nominations[v] <= ns[n].total {
      NominationsPositive(c, ns, n);
      SumBoundsPart(ns[n].nominations, v);
    }
    forall v | v in c ensures 0 <= c[v].bond <= c[v].total {
      BackersPositive(c, ns, v);
      SumNonNegative(c[v].nominators);
    }
    forall n | n in ns ensures 0 < ns[n].total {
      NominationsPositive(c, ns, n);
      SumEmpty(ns[n].nominations);
      SumNonNegative(ns[n].nominations);
    }
  }

  lemma BackersPositive(c: Candidates, ns: Nominators, v: AccountId)
    requires Sound(c, ns) && v in c
    ensures forall n :: n in c[v].nominators ==> 0 < c[v].nominators[n]
  {
    forall n | n in c[v].nominators ensures 0 < c[v].nominators[n] {
      assert Backs(c, v, n);
      assert Nominates(ns, n, v);
    }
  }

  lemma NominationsPositive(c: Candidates, ns: Nominators, n: AccountId)
    requires Sound(c, ns) && n in ns
    ensures forall v :: v in ns[n].nominations ==> 0 < ns[n].nominations[v]
  {
    forall v | v in ns[n].nominations ensures 0 < ns[n].nominations[v] {
      assert Nominates(ns, n, v);
    }
  }
}
