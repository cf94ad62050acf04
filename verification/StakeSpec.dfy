/** What the staking pallet does, stated on values: the storage with every sorted vector read as a
    map, and one function for each dispatchable and for the end of a round. The functions keep the
    code's own order of checks and its treatment of errors; nothing is rolled back here. */
module StakeSpec {
  import opened Primitives
  import opened PerThing
  import opened Sums
  import opened Ascending
  import opened Currency
  import opened Inflation

  datatype Status = Active | Idle | Leaving(when: int)

  datatype Candidate = Candidate(
    id: AccountId,
    fee: Perbill,
    bond: int,
    nominators: map<AccountId, int>,
    total: int,
    status: Status)

  datatype Nominator = Nominator(nominations: map<AccountId, int>, total: int)

  datatype Snapshot = Snapshot(fee: Perbill, bond: int, nominators: map<AccountId, int>, total: int)

  type Candidates = map<AccountId, Candidate>
  type Nominators = map<AccountId, Nominator>
  type Exposures = map<AccountId, Snapshot>
  type Awards = map<AccountId, nat>

  datatype State = State(
    round: nat,
    nominators: Nominators,
    candidates: Candidates,
    validators: seq<AccountId>,
    total: int,
    pool: map<AccountId, int>,
    exits: map<AccountId, int>,
    atStake: map<nat, Exposures>,
    staked: map<nat, int>,
    inflation: InflationInfo,
    points: map<nat, nat>,
    awarded: map<nat, Awards>,
    ledger: Ledger)

  datatype Outcome = Outcome(state: State, result: DispatchResult)

  function Done(s: State): Outcome { Outcome(s, Ok) }

  function Fail(s: State, e: Error): Outcome { Outcome(s, Err(e)) }

  // Storage reads with their defaults.

  function ExposuresOf(atStake: map<nat, Exposures>, r: nat): Exposures {
    if r in atStake then atStake[r] else map[]
  }

  function Exposure(exposures: Exposures, v: AccountId): Snapshot {
    if v in exposures then exposures[v] else Snapshot(0, 0, map[], 0)
  }

  function AwardsOf(awarded: map<nat, Awards>, r: nat): Awards {
    if r in awarded then awarded[r] else map[]
  }

  function PointsOf(points: map<nat, nat>, r: nat): nat {
    if r in points then points[r] else 0
  }

  function Staked(s: State, r: nat): int {
    if r in s.staked then s.staked[r] else 0
  }

  function Get(m: map<AccountId, int>, k: AccountId): int {
    if k in m then m[k] else 0
  }

  /** Writes candidate `v` back; the pool entry of an active candidate follows its total. */
  function PutCandidate(s: State, v: AccountId, c: Candidate): State {
    s.(candidates := s.candidates[v := c],
       pool := if c.status.Active? then s.pool[v := c.total] else s.pool)
  }

  // Governance.

  function SetStakingExpectations(s: State, expectations: Range<int>): Outcome {
    if !IsValidExpectation(expectations) then Fail(s, InvalidSchedule)
    else Done(s.(inflation := s.inflation.(expected := expectations)))
  }

  function SetInflation(s: State, schedule: Range<Perbill>): Outcome {
    if !IsValidRate(schedule) then Fail(s, InvalidSchedule)
    else Done(s.(inflation := s.inflation.(round := AnnualToRound(schedule))))
  }

  // Candidates.

  function JoinCandidates(s: State, acc: AccountId, fee: Perbill, bond: nat): Outcome {
    if acc in s.candidates then Fail(s, CandidateExists)
    else if acc in s.nominators then Fail(s, NominatorExists)
    else if fee > cfg.maxFee then Fail(s, FeeOverMax)
    else if bond < cfg.minValidatorStk then Fail(s, ValBondBelowMin)
    else if acc in s.pool then Fail(s, CandidateExists)
    else if !CanReserve(s.ledger, acc, bond) then Fail(s, InsufficientBalance)
    else Done(s.(
      candidates := s.candidates[acc := Candidate(acc, fee, bond, map[], bond, Active)],
      pool := s.pool[acc := bond],
      total := s.total + bond,
      ledger := Reserve(s.ledger, acc, bond)))
  }

  function LeaveCandidates(s: State, v: AccountId): Outcome {
    if v !in s.candidates then Fail(s, CandidateDNE)
    else if s.candidates[v].status.Leaving? then Fail(s, AlreadyLeaving)
    else if v in s.exits then Fail(s, AlreadyLeaving)
    else
      var when := s.round + cfg.bondDuration;
      Done(s.(
        candidates := s.candidates[v := s.candidates[v].(status := Leaving(when))],
        pool := s.pool - {v},
        exits := s.exits[v := when]))
  }

  function GoOffline(s: State, v: AccountId): Outcome {
    if v !in s.candidates then Fail(s, CandidateDNE)
    else if !s.candidates[v].status.Active? then Fail(s, AlreadyOffline)
    else Done(s.(
      candidates := s.candidates[v := s.candidates[v].(status := Idle)],
      pool := s.pool - {v}))
  }

  function GoOnline(s: State, v: AccountId): Outcome {
    if v !in s.candidates then Fail(s, CandidateDNE)
    else if s.candidates[v].status.Active? then Fail(s, AlreadyActive)
    else if s.candidates[v].status.Leaving? then Fail(s, CannotActivateIfLeaving)
    else if v in s.pool then Fail(s, AlreadyActive)
    else Done(s.(
      candidates := s.candidates[v := s.candidates[v].(status := Active)],
      pool := s.pool[v := s.candidates[v].total]))
  }

  function CandidateBondMore(s: State, v: AccountId, more: nat): Outcome {
    if v !in s.candidates then Fail(s, CandidateDNE)
    else if s.candidates[v].status.Leaving? then Fail(s, CannotActivateIfLeaving)
    else if !CanReserve(s.ledger, v, more) then Fail(s, InsufficientBalance)
    else
      var c := s.candidates[v];
      Done(PutCandidate(s.(ledger := Reserve(s.ledger, v, more)), v,
                        c.(bond := c.bond + more, total := c.total + more)))
  }

  function CandidateBondLess(s: State, v: AccountId, less: nat): Outcome {
    if v !in s.candidates then Fail(s, CandidateDNE)
    else if s.candidates[v].status.Leaving? then Fail(s, CannotActivateIfLeaving)
    else if s.candidates[v].bond <= less then Fail(s, Underflow)
    else if s.candidates[v].bond - less < cfg.minValidatorStk then Fail(s, ValBondBelowMin)
    else
      var c := s.candidates[v];
      Done(PutCandidate(s.(ledger := Unreserve(s.ledger, v, less)), v,
                        c.(bond := c.bond - less, total := c.total - less)))
  }

  // Nominators.

  function NominatorJoinsValidator(s: State, n: AccountId, amount: nat, v: AccountId): Outcome {
    if v !in s.candidates then Fail(s, CandidateDNE)
    else if n in s.candidates[v].nominators then Fail(s, NominatorExists)
    else if |s.candidates[v].nominators| + 1 > cfg.maxNominatorsPerValidator then Fail(s, TooManyNominators)
    else if !CanReserve(s.ledger, n, amount) then Fail(s, InsufficientBalance)
    else
      var c := s.candidates[v];
      Done(PutCandidate(s.(ledger := Reserve(s.ledger, n, amount), total := s.total + amount), v,
                        c.(nominators := c.nominators[n := amount], total := c.total + amount)))
  }

  function JoinNominators(s: State, acc: AccountId, v: AccountId, amount: nat): Outcome {
    if amount < cfg.minNominatorStk then Fail(s, NomBondBelowMin)
    else if acc in s.nominators then Fail(s, NominatorExists)
    else if acc in s.candidates then Fail(s, CandidateExists)
    else
      var joined := NominatorJoinsValidator(s, acc, amount, v);
      if joined.result.Err? then joined
      else Done(joined.state.(nominators := joined.state.nominators[acc := Nominator(map[v := amount], amount)]))
  }

  function NominatorLeavesValidator(s: State, n: AccountId, v: AccountId): Outcome {
    if v !in s.candidates then Fail(s, CandidateDNE)
    else if n !in s.candidates[v].nominators then Fail(s, NominatorDNE)
    else
      var c := s.candidates[v];
      var stake := c.nominators[n];
      Done(PutCandidate(s.(ledger := Unreserve(s.ledger, n, stake), total := s.total - stake), v,
                        c.(nominators := c.nominators - {n}, total := c.total - stake)))
  }

  /** The loop of `leave_nominators`: it stops at the first departure that fails and keeps the
      departures already made. */
  function LeaveEach(s: State, n: AccountId, vs: seq<AccountId>): Outcome
    decreases |vs|
  {
    if vs == [] then Done(s)
    else
      var left := NominatorLeavesValidator(s, n, vs[0]);
      if left.result.Err? then left else LeaveEach(left.state, n, vs[1..])
  }

  ghost function LeaveNominators(s: State, acc: AccountId): Outcome {
    if acc !in s.nominators then Fail(s, NominatorDNE)
    else
      var left := LeaveEach(s, acc, List(s.nominators[acc].nominations.Keys));
      if left.result.Err? then left
      else Done(left.state.(nominators := left.state.nominators - {acc}))
  }

  function NominateNew(s: State, acc: AccountId, v: AccountId, amount: nat): Outcome {
    if amount < cfg.minNomination then Fail(s, NominationBelowMin)
    else if acc !in s.nominators then Fail(s, NominatorDNE)
    else if |s.nominators[acc].nominations| >= cfg.maxValidatorsPerNominator then Fail(s, ExceedMaxValidatorsPerNom)
    else if v !in s.candidates then Fail(s, CandidateDNE)
    else if v in s.nominators[acc].nominations then Fail(s, AlreadyNominatedValidator)
    else if |s.candidates[v].nominators| >= cfg.maxNominatorsPerValidator then Fail(s, TooManyNominators)
    else if acc in s.candidates[v].nominators then Fail(s, NominatorExists)
    else if !CanReserve(s.ledger, acc, amount) then Fail(s, InsufficientBalance)
    else
      var c := s.candidates[v];
      var n := s.nominators[acc];
      var s1 := s.(ledger := Reserve(s.ledger, acc, amount), total := s.total + amount,
                   nominators := s.nominators[acc := Nominator(n.nominations[v := amount], n.total + amount)]);
      Done(PutCandidate(s1, v, c.(nominators := c.nominators[acc := amount], total := c.total + amount)))
  }

  /** The nominator's record after `swap_nomination`. When `new` is already nominated, only the
      entry of `new` is rebuilt: the entry of `old` stays. The total never changes. */
  function SwapNomination(n: Nominator, old': AccountId, new': AccountId): Nominator
    requires old' in n.nominations
  {
    var swapped := n.nominations[old'];
    if new' in n.nominations
    then n.(nominations := n.nominations[new' := n.nominations[new'] + swapped])
    else n.(nominations := (n.nominations - {old'})[new' := swapped])
  }

  function RmNominator(c: Candidate, n: AccountId): Candidate {
    c.(nominators := c.nominators - {n}, total := c.total - Get(c.nominators, n))
  }

  /** Inserts nothing when `n` is already listed, and still adds the amount to the total. */
  function AddNominator(c: Candidate, n: AccountId, amount: int): Candidate {
    c.(nominators := if n in c.nominators then c.nominators else c.nominators[n := amount],
       total := c.total + amount)
  }

  function UpdateNominator(c: Candidate, n: AccountId, amount: int): Candidate {
    if n !in c.nominators then c
    else c.(nominators := c.nominators[n := amount], total := c.total + amount - c.nominators[n])
  }

  function SwitchNomination(s: State, acc: AccountId, old': AccountId, new': AccountId): Outcome {
    if old' == new' then Fail(s, CannotSwitchToSameNomination)
    else if acc !in s.nominators then Fail(s, NominatorDNE)
    else if old' !in s.candidates || new' !in s.candidates then Fail(s, CandidateDNE)
    else if old' !in s.nominators[acc].nominations then Fail(s, NominationDNE)
    else
      var n := s.nominators[acc];
      var swapped := n.nominations[old'];
      var n' := SwapNomination(n, old', new');
      var amount := n'.nominations[new'];
      var o := RmNominator(s.candidates[old'], acc);
      var c := if amount > swapped then UpdateNominator(s.candidates[new'], acc, amount)
               else AddNominator(s.candidates[new'], acc, swapped);
      Done(PutCandidate(PutCandidate(s, old', o), new', c).(nominators := s.nominators[acc := n']))
  }

  function RevokeNomination(s: State, acc: AccountId, v: AccountId): Outcome {
    if acc !in s.nominators then Fail(s, NominatorDNE)
    else if v !in s.nominators[acc].nominations then Fail(s, NominationDNE)
    else
      var n := s.nominators[acc];
      var remaining := n.total - n.nominations[v];
      if remaining < cfg.minNominatorStk then Fail(s, NomBondBelowMin)
      else
        var left := NominatorLeavesValidator(s, acc, v);
        if left.result.Err? then left
        else Done(left.state.(nominators := left.state.nominators[acc := Nominator(n.nominations - {v}, remaining)]))
  }

  /** Raises or lowers what `n` has with candidate `c`; there is no effect when `n` is not listed. */
  function AdjustNominator(c: Candidate, n: AccountId, change: int): Candidate {
    if n !in c.nominators then c
    else c.(nominators := c.nominators[n := c.nominators[n] + change], total := c.total + change)
  }

  function AdjustNomination(n: Nominator, v: AccountId, change: int): Nominator
    requires v in n.nominations
  {
    Nominator(n.nominations[v := n.nominations[v] + change], n.total + change)
  }

  function NominatorBondMore(s: State, acc: AccountId, v: AccountId, more: nat): Outcome {
    if acc !in s.nominators then Fail(s, NominatorDNE)
    else if v !in s.candidates then Fail(s, CandidateDNE)
    else if v !in s.nominators[acc].nominations then Fail(s, NominationDNE)
    else if !CanReserve(s.ledger, acc, more) then Fail(s, InsufficientBalance)
    else
      var s1 := s.(ledger := Reserve(s.ledger, acc, more),
                   nominators := s.nominators[acc := AdjustNomination(s.nominators[acc], v, more)]);
      Done(PutCandidate(s1, v, AdjustNominator(s.candidates[v], acc, more)))
  }

  function NominatorBondLess(s: State, acc: AccountId, v: AccountId, less: nat): Outcome {
    if acc !in s.nominators then Fail(s, NominatorDNE)
    else if v !in s.candidates then Fail(s, CandidateDNE)
    else if v !in s.nominators[acc].nominations then Fail(s, NominationDNE)
    else if s.nominators[acc].nominations[v] <= less then Fail(s, Underflow)
    else if s.nominators[acc].nominations[v] - less < cfg.minNomination then Fail(s, NominationBelowMin)
    else if s.nominators[acc].total - less < cfg.minNominatorStk then Fail(s, NomBondBelowMin)
    else
      var s1 := s.(ledger := Unreserve(s.ledger, acc, less),
                   nominators := s.nominators[acc := AdjustNomination(s.nominators[acc], v, 0 - less)]);
      Done(PutCandidate(s1, v, AdjustNominator(s.candidates[v], acc, 0 - less)))
  }

  // Authorship.

  function NoteAuthor(s: State, author: AccountId): State {
    var awards := AwardsOf(s.awarded, s.round);
    var had := if author in awards then awards[author] else 0;
    s.(awarded := s.awarded[s.round := awards[author := had + 20]],
       points := s.points[s.round := PointsOf(s.points, s.round) + 20])
  }

  // The end of a round: payment.

  function AmountDue(points: nat, total: nat, issuance: int): int {
    Mul(FromRational(points, total), issuance)
  }

  /** The commission taken off the top; none when it is negligible. */
  function Commission(x: Snapshot, due: int): int {
    var commission := Mul(x.fee, due);
    if commission > cfg.existentialDeposit then commission else 0
  }

  function ValidatorDue(x: Snapshot, due: int): int {
    if x.nominators == map[] then due
    else Mul(FromRational(x.bond, x.total), due - Commission(x, due)) + Commission(x, due)
  }

  function NominatorDue(x: Snapshot, due: int, n: AccountId): int
    requires n in x.nominators
  {
    Mul(FromRational(x.nominators[n], x.total), due - Commission(x, due))
  }

  /** What a mint of `amount` to `a` creates: nothing when negligible or when `a` does not exist. */
  function Minted(l: Ledger, a: AccountId, amount: int): nat {
    if amount > cfg.existentialDeposit && a in l.accounts then amount else 0
  }

  /** What account `a` receives because `v` authored blocks worth `due`. */
  function Credit(l: Ledger, x: Snapshot, v: AccountId, due: int, a: AccountId): nat {
    (if a == v then Minted(l, v, ValidatorDue(x, due)) else 0)
    + (if a in x.nominators then Minted(l, a, NominatorDue(x, due, a)) else 0)
  }

  ghost function NominatorsMinted(l: Ledger, x: Snapshot, due: int): map<AccountId, int> {
    map n | n in x.nominators :: Minted(l, n, NominatorDue(x, due, n))
  }

  /** All that is minted because `v` authored blocks worth `due`. */
  ghost function MintedFor(l: Ledger, x: Snapshot, v: AccountId, due: int): nat {
    var toNominators := NominatorsMinted(l, x, due);
    SumNonNegative(toNominators);
    Minted(l, v, ValidatorDue(x, due)) + Sum(toNominators)
  }

  /** The accounts paid out for a round: the authors whose due is not negligible. */
  ghost function Payees(awards: Awards, total: nat, issuance: int): set<AccountId> {
    set v | v in awards && AmountDue(awards[v], total, issuance) > cfg.existentialDeposit
  }

  ghost function Credits(l: Ledger, exposures: Exposures, awards: Awards, total: nat, issuance: int,
                         payees: set<AccountId>, a: AccountId): map<AccountId, int>
    requires payees <= awards.Keys
  {
    map v | v in payees :: Credit(l, Exposure(exposures, v), v, AmountDue(awards[v], total, issuance), a)
  }

  ghost function Mints(l: Ledger, exposures: Exposures, awards: Awards, total: nat, issuance: int,
                       payees: set<AccountId>): map<AccountId, int>
    requires payees <= awards.Keys
  {
    map v | v in payees :: MintedFor(l, Exposure(exposures, v), v, AmountDue(awards[v], total, issuance))
  }

  /** Everything account `a` receives when `payees` are paid, in no particular order. */
  ghost function Received(l: Ledger, exposures: Exposures, awards: Awards, total: nat, issuance: int,
                          payees: set<AccountId>, a: AccountId): nat
    requires payees <= awards.Keys
  {
    var credits := Credits(l, exposures, awards, total, issuance, payees, a);
    SumNonNegative(credits);
    Sum(credits)
  }

  /** Everything minted when `payees` are paid. */
  ghost function TotalMinted(l: Ledger, exposures: Exposures, awards: Awards, total: nat, issuance: int,
                             payees: set<AccountId>): nat
    requires payees <= awards.Keys
  {
    var mints := Mints(l, exposures, awards, total, issuance, payees);
    SumNonNegative(mints);
    Sum(mints)
  }

  ghost function PaidLedger(l: Ledger, exposures: Exposures, awards: Awards, total: nat, issuance: int,
                            payees: set<AccountId>): Ledger
    requires payees <= awards.Keys
  {
    l.(accounts := map a | a in l.accounts ::
         Account(l.accounts[a].free + Received(l, exposures, awards, total, issuance, payees, a),
                 l.accounts[a].reserved),
       issuance := l.issuance + TotalMinted(l, exposures, awards, total, issuance, payees))
  }

  /** The issuance that the transition into `next` distributes. */
  function RoundIssuance(s: State, next: nat): int
    requires next > cfg.bondDuration
  {
    ComputeIssuance(s.inflation, s.ledger.issuance, Staked(s, next - cfg.bondDuration))
  }

  ghost function PayStakers(s: State, next: nat): State {
    if next <= cfg.bondDuration then s
    else
      var r := next - cfg.bondDuration;
      var awards := AwardsOf(s.awarded, r);
      var total := PointsOf(s.points, r);
      var issuance := RoundIssuance(s, next);
      var payees := Payees(awards, total, issuance);
      s.(awarded := s.awarded - {r},
         atStake := if payees == {} then s.atStake else s.atStake[r := ExposuresOf(s.atStake, r) - payees],
         ledger := PaidLedger(s.ledger, ExposuresOf(s.atStake, r), awards, total, issuance, payees))
  }

  // The end of a round: exits.

  function RmNomination(n: Nominator, v: AccountId): Nominator
    requires v in n.nominations
  {
    Nominator(n.nominations - {v}, n.total - n.nominations[v])
  }

  /** Returns to `n` its stake with the departing candidate `x`, and drops the nomination; the
      nominator's record goes when nothing remains. */
  function ReleaseOne(s: State, x: AccountId, n: AccountId, amount: int): State {
    var s1 := s.(ledger := Unreserve(s.ledger, n, amount));
    if n !in s.nominators || x !in s.nominators[n].nominations then s1
    else
      var rest := RmNomination(s.nominators[n], x);
      s1.(nominators := if rest.total == 0 then s.nominators - {n} else s.nominators[n := rest])
  }

  function ReleaseEach(s: State, x: AccountId, bonds: map<AccountId, int>, ns: seq<AccountId>): State
    requires forall n :: n in ns ==> n in bonds
    decreases |ns|
  {
    if ns == [] then s else ReleaseEach(ReleaseOne(s, x, ns[0], bonds[ns[0]]), x, bonds, ns[1..])
  }

  ghost function ExitOne(s: State, x: AccountId): State {
    if x !in s.candidates then s
    else
      var c := s.candidates[x];
      var s1 := ReleaseEach(s, x, c.nominators, List(c.nominators.Keys));
      s1.(ledger := Unreserve(s1.ledger, c.id, c.bond),
          total := s1.total - c.total,
          candidates := s1.candidates - {x})
  }

  ghost function ExitEach(s: State, xs: seq<AccountId>): State
    decreases |xs|
  {
    if xs == [] then s else ExitEach(ExitOne(s, xs[0]), xs[1..])
  }

  ghost function DueExits(s: State, next: nat): set<AccountId> {
    set x | x in s.exits && s.exits[x] <= next
  }

  ghost function ExecuteDelayedExits(s: State, next: nat): State {
    ExitEach(s, List(DueExits(s, next))).(exits := s.exits - DueExits(s, next))
  }

  // The end of a round: selection.

  /** A choice that the unstable sort by stake can make: as many of the pool as fit, none of them
      smaller than one left out. */
  ghost predicate BestChoice(pool: map<AccountId, int>, chosen: set<AccountId>) {
    && chosen <= pool.Keys
    && |chosen| == (if |pool| < cfg.maxValidators then |pool| else cfg.maxValidators)
    && forall c, d :: c in chosen && d in pool && d !in chosen ==> pool[d] <= pool[c]
  }

  /** Snapshot `x` holds, part by part, what record `c` says. */
  ghost predicate Copies(x: Snapshot, c: Candidate) {
    x.fee == c.fee && x.bond == c.bond && x.nominators == c.nominators && x.total == c.total
  }

  function SnapshotOf(c: Candidate): Snapshot {
    Snapshot(c.fee, c.bond, c.nominators, c.total)
  }

  ghost function SelectValidators(s: State, next: nat, chosen: set<AccountId>): State
    requires chosen <= s.candidates.Keys
  {
    s.(atStake := if chosen == {} then s.atStake
                  else s.atStake[next := ExposuresOf(s.atStake, next) + map v | v in chosen :: SnapshotOf(s.candidates[v])],
       validators := List(chosen))
  }

  /** The transition into the next round, up to the choice of validators. */
  ghost function BeforeSelection(s: State): State {
    ExecuteDelayedExits(PayStakers(s, s.round + 1), s.round + 1)
  }

  /** The validators that the transition may choose. The code panics if one is not a candidate. */
  ghost predicate Selectable(s: State, chosen: set<AccountId>) {
    BestChoice(BeforeSelection(s).pool, chosen) && chosen <= BeforeSelection(s).candidates.Keys
  }

  ghost function NewRound(s: State, chosen: set<AccountId>): State
    requires Selectable(s, chosen)
  {
    var next := s.round + 1;
    var s1 := SelectValidators(BeforeSelection(s), next, chosen);
    s1.(round := next, staked := s1.staked[next := s1.total])
  }

  ghost function OnFinalize(s: State, n: nat, chosen: set<AccountId>): State
    requires n % cfg.blocksPerRound == 0 ==> Selectable(s, chosen)
  {
    if n % cfg.blocksPerRound == 0 then NewRound(s, chosen) else s
  }

  // Dispatch.

  datatype Call =
    | CallSetStakingExpectations(expectations: Range<int>)
    | CallSetInflation(schedule: Range<Perbill>)
    | CallJoinCandidates(fee: Perbill, bond: nat)
    | CallLeaveCandidates
    | CallGoOffline
    | CallGoOnline
    | CallCandidateBondMore(more: nat)
    | CallCandidateBondLess(less: nat)
    | CallJoinNominators(validator: AccountId, amount: nat)
    | CallLeaveNominators
    | CallNominateNew(validator: AccountId, amount: nat)
    | CallSwitchNomination(from: AccountId, to: AccountId)
    | CallRevokeNomination(validator: AccountId)
    | CallNominatorBondMore(candidate: AccountId, more: nat)
    | CallNominatorBondLess(candidate: AccountId, less: nat)

  /** Call `call` made by `who`. */
  ghost function Dispatch(s: State, who: AccountId, call: Call): Outcome {
    match call
    case CallSetStakingExpectations(e) => SetStakingExpectations(s, e)
    case CallSetInflation(r) => SetInflation(s, r)
    case CallJoinCandidates(fee, bond) => JoinCandidates(s, who, fee, bond)
    case CallLeaveCandidates => LeaveCandidates(s, who)
    case CallGoOffline => GoOffline(s, who)
    case CallGoOnline => GoOnline(s, who)
    case CallCandidateBondMore(more) => CandidateBondMore(s, who, more)
    case CallCandidateBondLess(less) => CandidateBondLess(s, who, less)
    case CallJoinNominators(v, amount) => JoinNominators(s, who, v, amount)
    case CallLeaveNominators => LeaveNominators(s, who)
    case CallNominateNew(v, amount) => NominateNew(s, who, v, amount)
    case CallSwitchNomination(from, to) => SwitchNomination(s, who, from, to)
    case CallRevokeNomination(v) => RevokeNomination(s, who, v)
    case CallNominatorBondMore(v, more) => NominatorBondMore(s, who, v, more)
    case CallNominatorBondLess(v, less) => NominatorBondLess(s, who, v, less)
  }
}
