/** Types shared by every module, and the runtime configuration.

    Account ids are natural numbers: the code only compares them, with a total order. */
module Primitives {

  type AccountId = nat

  datatype Option<+T> = None | Some(value: T)

  const BILLION: int := 1_000_000_000

  /** Parts per billion, as `Perbill::from_parts` keeps them. */
  type Perbill = p: nat | p <= BILLION

  /** Whole percents. */
  type Percent = p: nat | p <= 100

  const SECONDS_PER_YEAR: nat := 31557600
  const SECONDS_PER_BLOCK: nat := 6
  const BLOCKS_PER_YEAR: nat := SECONDS_PER_YEAR / SECONDS_PER_BLOCK

  datatype Parameters = Parameters(
    blocksPerRound: nat,
    bondDuration: nat,
    maxValidators: nat,
    maxNominatorsPerValidator: nat,
    maxValidatorsPerNominator: nat,
    maxFee: Perbill,
    minValidatorStk: nat,
    minNomination: nat,
    minNominatorStk: nat,
    existentialDeposit: nat)

  /** What a runtime must satisfy for the pallet to work at all: a round has at least one block and
      fits in a year (the code divides by both), payment is delayed by at least one round, and
      nominations are positive with the smaller of the two nomination floors below the larger. */
  type Config = c: Parameters |
      && 1 <= c.blocksPerRound <= BLOCKS_PER_YEAR
      && 1 <= c.bondDuration
      && 0 < c.minNomination <= c.minNominatorStk
    witness Parameters(5, 2, 5, 4, 4, 500_000_000, 10, 3, 5, 1)

  /** An arbitrary configuration: nothing is known about it beyond its type. */
  const cfg: Config

  datatype Error =
    | NominatorDNE
    | CandidateDNE
    | NominatorExists
    | CandidateExists
    | FeeOverMax
    | ValBondBelowMin
    | NomBondBelowMin
    | NominationBelowMin
    | AlreadyOffline
    | AlreadyActive
    | AlreadyLeaving
    | TooManyNominators
    | CannotActivateIfLeaving
    | ExceedMaxValidatorsPerNom
    | AlreadyNominatedValidator
    | NominationDNE
    | Underflow
    | CannotSwitchToSameNomination
    | InvalidSchedule
    | InsufficientBalance
    | AuthorAlreadySet
    | CannotBeAuthor

  datatype DispatchResult = Ok | Err(error: Error)

  function Max(a: int, b: int): int {
    if a < b then b else a
  }

  function Min(a: int, b: int): int {
    if a < b then a else b
  }
}
