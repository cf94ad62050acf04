/** Round inflation from annual inflation, and the issuance of a round (`inflation.rs`). */
module Inflation {
  import opened Primitives
  import opened PerThing

  datatype Range<T> = Range(min: T, ideal: T, max: T)

  predicate IsValidRate(r: Range<Perbill>) {
    r.max >= r.ideal && r.ideal >= r.min
  }

  predicate IsValidExpectation(r: Range<int>) {
    r.max >= r.ideal && r.ideal >= r.min
  }

  datatype InflationInfo = InflationInfo(expected: Range<int>, round: Range<Perbill>)

  /** How many whole rounds fit in a year. */
  function RoundsPerYear(): (r: nat)
    ensures 1 <= r
    ensures r * cfg.blocksPerRound <= BLOCKS_PER_YEAR < (r + 1) * cfg.blocksPerRound
  {
    Division(BLOCKS_PER_YEAR, cfg.blocksPerRound);
    BLOCKS_PER_YEAR / cfg.blocksPerRound
  }

  function PerRound(annual: Perbill): (r: Perbill)
    ensures r * RoundsPerYear() <= annual < (r + 1) * RoundsPerYear()
  {
    var n := RoundsPerYear();
    Division(annual, n);
    annual / n
  }

  function AnnualToRound(annual: Range<Perbill>): Range<Perbill> {
    Range(PerRound(annual.min), PerRound(annual.ideal), PerRound(annual.max))
  }

  function RoundIssuanceRange(round: Range<Perbill>, circulating: nat): Range<int> {
    Range(Mul(round.min, circulating), Mul(round.ideal, circulating), Mul(round.max, circulating))
  }

  /** The issuance of a round in which `staked` was locked, out of `circulating`. */
  function ComputeIssuance(config: InflationInfo, circulating: nat, staked: int): (r: int)
    ensures 0 <= r <= circulating
  {
    var issuance := RoundIssuanceRange(config.round, circulating);
    if staked < config.expected.min then issuance.min
    else if staked > config.expected.max then issuance.max
    else issuance.ideal
  }

  /** `issuance` is what a round distributes that had `staked` locked, out of `circulating`: the integer
      nearest to the supply at the lowest round rate below the expected stake, at the highest rate
      above it, and at the ideal rate in between. */
  ghost predicate IsIssuance(config: InflationInfo, circulating: nat, staked: int, issuance: int) {
    && (staked < config.expected.min ==> IsNearest(config.round.min, circulating, issuance))
    && (config.expected.min <= staked <= config.expected.max ==> IsNearest(config.round.ideal, circulating, issuance))
    && (config.expected.min <= staked && config.expected.max < staked ==> IsNearest(config.round.max, circulating, issuance))
  }

  /** The property defines `ComputeIssuance`. */
  lemma IssuanceByStake(config: InflationInfo, circulating: nat, staked: int, issuance: int)
    ensures issuance == ComputeIssuance(config, circulating, staked) <==> IsIssuance(config, circulating, staked, issuance)
  {
    hide IsNearest, Mul;
    MulUnique(config.round.min, circulating, issuance);
    MulUnique(config.round.ideal, circulating, issuance);
    MulUnique(config.round.max, circulating, issuance);
  }

  /** Division keeps the order of the annual rates, and a year of rounds at the round rate never
      exceeds the annual rate and falls short of it by less than one part per round. */
  lemma AnnualToRoundKeepsOrder(annual: Range<Perbill>)
    requires IsValidRate(annual)
    ensures IsValidRate(AnnualToRound(annual))
    ensures forall a: Perbill :: a in {annual.min, annual.ideal, annual.max} ==>
              PerRound(a) * RoundsPerYear() <= a < PerRound(a) * RoundsPerYear() + RoundsPerYear()
  {
    var n := RoundsPerYear();
    PerRoundMonotone(annual.min, annual.ideal);
    PerRoundMonotone(annual.ideal, annual.max);
    forall a: Perbill | a in {annual.min, annual.ideal, annual.max}
      ensures PerRound(a) * n <= a < PerRound(a) * n + n
    {
      assert (PerRound(a) + 1) * n == PerRound(a) * n + n;
    }
  }

  lemma PerRoundMonotone(a: Perbill, b: Perbill)
    requires a <= b
    ensures PerRound(a) <= PerRound(b)
  {
    var n := RoundsPerYear();
    assert (PerRound(b) + 1) * n == PerRound(b) * n + n;
    if PerRound(b) < PerRound(a) {
      MulLess(PerRound(b), PerRound(a), n);
    }
  }

  /** With a valid schedule, issuance stays between the shares at the lowest and the highest rate,
      and grows with the stake and with the circulating supply, whatever the expectations are. */
  lemma IssuanceMonotone(config: InflationInfo, circulating: nat, more: nat, staked: int, larger: int)
    requires IsValidRate(config.round)
    requires circulating <= more && staked <= larger
    ensures Mul(config.round.min, circulating) <= ComputeIssuance(config, circulating, staked)
    ensures ComputeIssuance(config, circulating, staked) <= Mul(config.round.max, circulating)
    ensures ComputeIssuance(config, circulating, staked) <= ComputeIssuance(config, more, larger)
  {
    forall p: Perbill, q: Perbill, x: nat, y: nat | p <= q && x <= y
      ensures Mul(p, x) <= Mul(q, y)
    {
      MulMonotone(p, q, x, y);
    }
  }
}
