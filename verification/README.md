# Staking, block by block

A model in Dafny of how Moonbeam's staking pallet keeps its books, and of the two pallets that decide
who may author a block and so who earns rewards. The pallet holds the same money in three places by
hand: candidates with their nominators, nominators with their nominations, and a pool ordered for
selection. Beside them stand the currency reserves, a queue of delayed exits, a snapshot of every
selected validator for every round, and the points of block authors. The project states what ties
these together after every step of every possible run of the chain, and proves it.

There are two layers.

- **What the code does**, in its own form: `OrderedSet` (`OrderedSet.dfy`), the `Validator` and
  `Nominator` objects (`Records.dfy`), the staking pallet with its storage items, dispatchables and
  loops (`StakePallet.dfy`), and the runtime that wires it to the author filter and the author inherent
  (`Runtime.dfy`). Every method is proved to do exactly what a function on values says: `StakeSpec.dfy`
  for the pallet, `Chain.dfy` for a whole block. Sorted vectors are read as maps there.
- **What follows**, for those functions: the invariants and the theorems about whole runs. A run
  (`Chain.Run`) is any genesis and any finite sequence of enabled steps: the hooks of a block, the
  inherent that names the author, every dispatchable by anyone, and whatever the rest of the runtime
  does to the ledger short of touching what this pallet has reserved.

A run is *clean* when no accepted `switch_nomination` targets a validator that the caller already nominates.
That branch of `swap_nomination` leaves the old bond in the caller's record (pallets/stake/src/lib.rs:348-371),
although its documentation says that it only adds the old bond to the existing one. The model keeps
the code as it is: `Switching` proves that the switch keeps the books sound exactly when it does not
merge, `CleanRuns` that a run's books are sound exactly as long as it is clean, and `StaleStake` what becomes
of the bond left behind.

Where to start reading: `StakeSpec.dfy` (the pallet as functions), `Chain.dfy` (runs), then
`Guarantees.dfy`, `Earnings.dfy`, `Rewards.dfy`, `RunSteps.dfy`, `ExitSchedule.dfy`, `TotalLocked.dfy`,
`NominatorCap.dfy` and `Liveness.dfy` (the theorems about runs). `PayoutSplit.dfy` fixes who is paid what by the
amounts alone; `Verdicts.dfy`, `CallEffects.dfy` and `StakeTable.dfy` do the same for the answer and the
effect of every call. `Witnesses.dfy` has runs that show what the code lets happen:
the total locked below zero, a merging switch, stake that nothing backs, a release of what another
pallet has reserved, a candidate over its cap, an empty validator set.
`Books.dfy` and `Solvency.dfy` hold the central invariant: every nominator-side call is one change of
one bond in both records, and the ledger holds for every account what the books owe it. `Calls.dfy`
has the frame that each single call stays in.

The configuration is one arbitrary value `cfg` of which only this is known: a round has at least one
block and fits in a year, the bond duration is at least one round, and nominations are positive with
`MinNomination <= MinNominatorStk`.

## Model

| member | source | states |
|---|---|---|
| `Guarantees.RecordsMirror` | pallets/stake/src/lib.rs:779-939 | on every clean run nominator n's record holds bond (v, a) exactly when candidate v's record holds (n, a); totals are the sums of their parts; bonds, nominations and the nominations per nominator stay within their floors and cap; nobody has both roles |
| `Guarantees.ReservesMatch` | pallets/stake/src/lib.rs:662-939 | on every clean run what the pallet has reserved for an account is its candidate bond or its nominator total, is still reserved whatever other pallets did, and all such reserves sum to the sum of candidate totals |
| `Guarantees.ReleasesAreExact` | pallets/stake/src/lib.rs:1040-1165 | on every clean run each call, and each transition with all its exits, changes every account's reserve by exactly the change in what the books owe it: no release falls short or is forgotten |
| `Guarantees.PoolAndExitQueueExact` | pallets/stake/src/lib.rs:662-745 | on every run (v, t) is in the pool exactly when v is an active candidate with total t, (v, w) in the exit queue exactly when v is leaving in round w, and w lies in (round, round + bond duration] |
| `Guarantees.IndexesNeverCollide` | pallets/stake/src/lib.rs:673-745 | on every run the pool and queue inserts of joining, leaving and going online succeed, and going offline finds an entry to remove |
| `Guarantees.SelectionFindsCandidates` | pallets/stake/src/lib.rs:1181-1184 | on every run the `expect` of the selection loop never fails |
| `Guarantees.OnlyAMissingAuthorStopsABlock` | pallets/stake/src/lib.rs:1181-1184 | on every run, clean or not, an open block has a finalizing step exactly when it has an author: of the two explicit panics, the missing author's is the only one that can happen; the subtraction from Total is judged in `TotalLocked` |
| `Chain.ExtendRun` | pallets/stake/src/lib.rs:594-955 | any enabled step extends a run and changes nothing in its past, so the theorems hold of everything the runtime's methods can do in sequence |
| `Liveness.AuthorCanBeFound` | pallets/author-filter/src/lib.rs:70-143 | on every run a block without an author can be given one exactly when there are validators and the ratio is not zero |
| `Liveness.AnotherBlock` | pallets/author-inherent/src/lib.rs:97-144 | on every run, between blocks, with validators and a non-zero ratio another block can be executed to its end |
| `Liveness.AnyNumberOfBlocks` | pallets/stake/src/lib.rs:940-955 | with somebody in the pool, and nothing but blocks, every run goes on for any number of blocks and so through any number of transitions |
| `Liveness.EmptySetStopsTheChain` | pallets/author-inherent/src/lib.rs:133-144 | on every run, once the validator set is empty no block is finalized and no round ends any more, whatever calls are made |
| `Witnesses.EverybodyGoesOffline` | pallets/stake/src/lib.rs:713-727 | a clean run from genesis that ends, by two calls of `go_offline`, with a transition into an empty validator set |
| `Liveness.NextSetEmptyExactly` | pallets/stake/src/lib.rs:1167-1193 | on every run a transition leaves no validators exactly when the pool is empty before it or MaxValidators is zero |
| `Liveness.AuthorAlwaysChosen` | pallets/author-inherent/src/lib.rs:107-131 | on every run the author of an open block is in the current validator set |
| `Guarantees.ValidatorSetIsSearchable` | pallets/stake/src/lib.rs:1181-1193 | on every run the validator vector is strictly sorted, so binary search decides membership, and each validator has a snapshot for the round |
| `Guarantees.ChoiceIsOptimal` | pallets/stake/src/lib.rs:1167-1195 | on every clean run a transition chooses min(MaxValidators, pool size) candidates and no other choice that fits has a larger combined stake, for any order of ties |
| `Guarantees.LeavingIsAllOrNothing` | pallets/stake/src/lib.rs:797-806 | on every clean run leaving the nominators fails only for an account that is none, and otherwise releases exactly the total and both records of every bond |
| `Guarantees.FailedCallsChangeNothing` | pallets/stake/src/lib.rs:662-939 | on every clean run a call that returns an error leaves all storage and balances as they were |
| `RunSteps.CallsAsTold` | pallets/stake/src/lib.rs:594-939 | every call of a clean run: the answer is the first reason that applies in its list of checks, Ok when none does; refused it changes nothing; accepted, unless it is a merging switch, it changes stakes, fees and statuses exactly as its entry says, and neither rounds nor inflation settings |
| `Verdicts.DispatchVerdict` | pallets/stake/src/lib.rs:594-939 | on solvent states with exact indexes every call is refused exactly for the first failing check, stated on stakes, statuses, caps, floors and free balances: among them the nominator's floor for revoking and for bonding less |
| `CallEffects.DispatchDoes` | pallets/stake/src/lib.rs:662-939 | on solvent books an accepted call that does not merge changes the caller's stakes as told and nobody else's, the status as told (leaving exactly one bond duration ahead, idle, active), and the fee of none but a new candidate |
| `StakeTable.TableDeterminesBooks` | pallets/stake/src/lib.rs:134-141 | two solvent states with the same candidates, fees, statuses and stakes have the same records on both sides and hold the same for everybody, so what the calls do to these is all they do to the books |
| `CallEffects.GovernanceExactly` | pallets/stake/src/lib.rs:617-658 | governance is refused exactly for unordered input; one call replaces the expectations, the other the round rates by the greatest that over a year of rounds do not exceed the annual ones; nothing else changes |
| `RunSteps.CallsRespectFloor` | pallets/stake/src/lib.rs:1027-1039 | on every state no accepted call leaves a nominator with less than MinNominatorStk unless it had no more before |
| `RunSteps.TransitionsAsTold` | pallets/stake/src/lib.rs:940-955 | on every run a transition removes exactly the candidates leaving in the round entered and leaves every other record, the pool and the inflation settings alone; on a clean run the nominators that remain are those with a stake left, each with the stakes it had |
| `RunSteps.OtherSteps` | pallets/author-inherent/src/lib.rs:97-144 | a step that is neither a call nor a transition touches no record, index, total or setting of the staking pallet; what it does to author, ratio, block number and block state |
| `RunSteps.RatioAndBlock` | pallets/author-filter/src/lib.rs:151-171 | on every run the eligible ratio is the last one set, one half before the first, and the block number counts the blocks begun |
| `RunSteps.GenesisCallsInOrder` | pallets/stake/src/lib.rs:558-591 | genesis makes one call per staker, in order, from empty books: joining as a candidate with no fee or as a nominator; each covers its balance at its turn, and the first state has the books that this gives |
| `Rewards.PointsAreAccounted` | pallets/stake/src/lib.rs:1200-1207 | on every run an unpaid round's points are the sum of the points awarded in it, a completed round has exactly 20 per block, a later round none |
| `Rewards.NobodyIsPaidTwice` | pallets/stake/src/lib.rs:1085-1093 | on every run, once the transition that pays a round has happened, every later state has no awards for that round and lies past the transition that pays it |
| `Earnings.RoundPaysExactly` | pallets/stake/src/lib.rs:1079-1125 | on every run the transition that pays a round divides the issuance, fixed by the total locked when the round was set up, by the blocks each validator authored in it, and splits each part by the fee, bond and nominations of the validator's record at set-up; what each account owns and the issuance change by exactly that |
| `Earnings.FirstRoundsPayNothing` | pallets/stake/src/lib.rs:1087-1089 | on every run a transition mints nothing and leaves each account what it owns until the bond duration has passed |
| `PayoutSplit.PayoutExactly` | pallets/stake/src/lib.rs:1079-1125 | on every state: each author is due the nearest integer to its truncated share of points times the issuance; those above the existential deposit are split; each free balance rises by the sum of what the account gains from the splits, no reserve moves, and the issuance rises by what all gain |
| `PayoutSplit.SplitUnique` | pallets/stake/src/lib.rs:1100-1119 | there is exactly one split of a reward: without nominators the author gets all of it; otherwise the commission is the integer nearest to fee times due and counts only above the deposit, the author gets its bond's portion of what is left and the commission, and each nominator its own portion |
| `PayoutSplit.DivisionUnique` | pallets/stake/src/lib.rs:1093-1099 | there is exactly one division of a round's issuance into dues, and of the dues above the existential deposit into splits |
| `PayoutSplit.PayoutUsesUp` | pallets/stake/src/lib.rs:1093-1100 | the payment drains the awards of the round paid and takes the snapshots of exactly those authors whose due is above the existential deposit |
| `Earnings.AwardsCountBlocks` | pallets/stake/src/lib.rs:1201-1206 | on every run, for every unpaid round and every account: it has an award exactly when it was accepted as the author of some block of that round, and then of twenty points for each such block, counted over the events of the run |
| `Earnings.NamingAnAuthor` | pallets/author-inherent/src/lib.rs:107-131 | an author is accepted exactly when the block has none and the account is drawn; it then is the author and the round has twenty more points; otherwise nothing changes |
| `Rewards.RoundWasSetUp` | pallets/stake/src/lib.rs:940-955 | every round reached on a run was set up at some moment of it |
| `Rewards.StakeOfRound` | pallets/stake/src/lib.rs:949-952 | on every run the stake stored for a round is, ever after, the total locked at the moment the round was set up |
| `Rewards.SnapshotIsolation` | pallets/stake/src/lib.rs:259-268 | on every run, until a round is paid, the fee, the bond, the nominators and the total stored for each of its validators are those of its record at the moment the round was set up, whatever happened since, and only those validators have awards for it |
| `Rewards.PayeesWereChosen` | pallets/stake/src/lib.rs:1093-1100 | on every run each account with awards for the round being paid was in that round's validator set, and the fee, bond, nominators and total it is paid by are those of its record when the round was set up, never a default's |
| `Rewards.MintingBound` | pallets/stake/src/lib.rs:1079-1125 | on every clean run the transition that pays a round mints at most that round's issuance, which follows from the total locked when the round was set up, and half a unit for each rounded share, for any points, fees and stakes |
| `Receipts.ReceiptsAreMinted` | pallets/stake/src/lib.rs:1080-1119 | the receipts of all accounts of one payout sum to what it mints, for any snapshots and awards |
| `Receipts.PaymentConserves` | pallets/stake/src/lib.rs:1080-1119 | a payout adds to all free balances together exactly what it adds to the issuance |
| `ExitSchedule.RemovedExactlyOnTime` | pallets/stake/src/lib.rs:1126-1165 | on every run a candidate disappears exactly at the transition into the round it was queued to leave in |
| `ExitSchedule.LeavingIsNeverUndone` | pallets/stake/src/lib.rs:690-745 | on every run a candidate that is leaving in some round stays so until that round |
| `TotalLocked.TotalLockedLedger` | pallets/stake/src/lib.rs:679-680 | on every clean run Total plus all bond_more less all bond_less is the sum of candidate totals, and Total is non-negative exactly when that net is at most this sum |
| `TotalLocked.StepShortfall` | pallets/stake/src/lib.rs:747-778 | from solvent books a step changes what Total lacks by exactly the bond it adds or takes without counting it |
| `TotalLocked.ExitSubtractionsExactly` | pallets/stake/src/lib.rs:1151-1152 | on every clean run, judged before a transition: none of the subtractions from Total at its exits goes below zero exactly when there is no exit or all bond_more less all bond_less so far is at most the totals of the candidates that remain |
| `TotalLocked.ExitTotalsFall` | pallets/stake/src/lib.rs:1151-1152 | from solvent books Total only falls from exit to exit, so the last subtraction is the tightest |
| `TotalLocked.DepartureSubtractionExactly` | pallets/stake/src/lib.rs:1067-1068 | on every clean run, judged before the call: taking a nominator that leaves all its validators out of Total stays non-negative exactly when the net adjustment is at most the candidates' totals less the nominator's |
| `TotalLocked.RevokeSubtractionExactly` | pallets/stake/src/lib.rs:1067-1068 | the same for the one nomination that an accepted `revoke_nomination` takes out of Total |
| `Witnesses.ExitTakesMoreThanTotal` | pallets/stake/src/lib.rs:1151-1152 | a clean run from genesis whose last step is the transition that executes an exit, with Total non-negative before it and -1 after: one of two candidates bonds more than the other has and leaves |
| `Witnesses.DepartureTakesMoreThanTotal` | pallets/stake/src/lib.rs:1067-1068 | a clean run from genesis whose last step is a nominator leaving, with Total non-negative before it and -1 after |
| `Outcomes.ErrorsChangeNothing` | pallets/stake/src/lib.rs:662-939 | every call that returns an error changes nothing, on every state but for `leave_nominators`, which needs sound books |
| `Outcomes.LeaveNominatorsExactly` | pallets/stake/src/lib.rs:797-806 | on every state leaving succeeds exactly when every validator nominated lists the nominator; otherwise it departs from those before the first that does not, and from no other |
| `Outcomes.FailedLeaveExactly` | pallets/stake/src/lib.rs:797-806 | a failed leave has changed nothing exactly when the least validator nominated does not list the nominator |
| `Outcomes.LeavingAfterMerge` | pallets/stake/src/lib.rs:348-371 | a leave called right after a switch that merges fails, and has released part of the stake unless the old validator is the least one nominated |
| `Witnesses.FailedLeaveChangesState` | pallets/stake/src/lib.rs:797-806 | a run from genesis whose last call returns an error and yet changes the state: a nominator that has merged departs from one validator and fails at the next |
| `StaleStake.StakeFromNothing` | pallets/stake/src/lib.rs:856-881 | from solvent books, for every merge and every third candidate: both the merging switch and the switch of the bond it left behind are accepted, no reserve changes, and the candidates' totals together then exceed all reserves by exactly that bond |
| `StaleStake.LeavingTakesFromOthers` | pallets/stake/src/lib.rs:1040-1061 | leaving then succeeds, and takes from what other pallets have reserved for the account as much of that bond as they have |
| `Witnesses.StakeFromNothingHappens` | pallets/stake/src/lib.rs:856-881 | a run from genesis, clean up to these two switches, that ends with unbacked stake |
| `Witnesses.ReserveOfOthersIsTaken` | pallets/stake/src/lib.rs:1061 | a run from genesis whose last call succeeds and takes what another pallet has reserved |
| `Switching.SwitchSolventExactly` | pallets/stake/src/lib.rs:856-881 | after a successful switch from solvent books the books are solvent exactly when it did not merge |
| `Switching.SwitchMovesSwappedAmount` | pallets/stake/src/lib.rs:856-881 | from any mirrored state both branches move exactly the swapped amount from the old candidate's total to the new one's and touch nothing else |
| `Switching.MergeBreaksMirror` | pallets/stake/src/lib.rs:348-371 | the exact effect of the merge branch: the old bond stays in the caller's record only, and its nominations exceed its total by the swapped amount |
| `Switching.EveryMergeBreaks` | pallets/stake/src/lib.rs:856-881 | from solvent books the code accepts every switch between two validators that the caller nominates, and every one breaks the books |
| `Witnesses.MergeHappens` | pallets/stake/src/lib.rs:348-371 | a run from genesis, clean and solvent up to its last step, which is a switch that merges, and not solvent after it |
| `Switching.SwitchKeepsNominatorCapExactly` | pallets/stake/src/lib.rs:868-872 | a switch keeps the cap on nominators exactly when the new candidate has room, which nothing checks |
| `NominatorCap.StepWithinCapExactly` | pallets/stake/src/lib.rs:662-955 | from any state with no candidate over MaxNominatorsPerValidator, clean or not, a step keeps it so exactly when it is not an accepted switch that inserts its caller into a full candidate |
| `NominatorCap.WithinCapExactly` | pallets/stake/src/lib.rs:662-955 | every state of a run, clean or not, is within the cap on nominators exactly when the run has no such switch |
| `NominatorCap.FullCandidateAccepts` | pallets/stake/src/lib.rs:856-881 | from solvent books every switch into a candidate not yet nominated is accepted, and into a full one it breaks the cap |
| `Witnesses.CapIsExceeded` | pallets/stake/src/lib.rs:868-872 | for every cap that lets a nominator in at all, a clean run from genesis ends with a switch that takes a candidate over the cap |
| `CleanRuns.AlwaysClean` | pallets/stake/src/lib.rs:558-955 | every state of every clean run is solvent, from genesis on, and so is every snapshot it stores |
| `CleanRuns.SolventExactlyWhenClean` | pallets/stake/src/lib.rs:348-371 | all states of a run are solvent exactly when it has no accepted switch that merges |
| `CleanRuns.DispatchSolvent` | pallets/stake/src/lib.rs:662-939 | every clean call, failing or not, keeps the books sound and the ledger in step with them |
| `EveryRun.AlwaysKept` | pallets/stake/src/lib.rs:558-955 | every state of every run has exact indexes, consistent rounds and a round number that follows from the block number |
| `EveryRun.AuthorIsValidator` | pallets/author-inherent/src/lib.rs:107-131 | an account that the inherent accepts as author is in the validator set of the round |
| `Departures.LeaveNominatorsAllOrNothing` | pallets/stake/src/lib.rs:797-806 | from solvent books the loop of departures never stops early, releases exactly the nominator's total and takes it off the totals |
| `Departures.ReleaseEachDetaches` | pallets/stake/src/lib.rs:1134-1147 | the inner exit loop takes every bond of the departing candidate out of both records and releases its amount, one solvent state at a time |
| `Departures.ExecuteDelayedExitsSolvent` | pallets/stake/src/lib.rs:1126-1165 | the exit loops keep the books sound and the ledger in step |
| `Solvency.RestOfNominator` | pallets/stake/src/lib.rs:1139-1146 | on sound books the zero-remaining test removes a nominator's record exactly when its last nomination goes |
| `Solvency.DetachSolvent` | pallets/stake/src/lib.rs:1040-1078 | taking one bond out of both records releases its recorded amount exactly and leaves solvent books |
| `Calls.DispatchTame` | pallets/stake/src/lib.rs:662-939 | no call but the two of governance touches rounds, snapshots, points or inflation settings, loosens the indexes, or calls off an exit, and none of them but a switch takes a candidate over its cap |
| `Conservation.DispatchConserves` | pallets/stake/src/lib.rs:662-939 | on every state a call mints nothing, keeps each account's free plus reserved, and books every change of a reserve as held; whose reserve a release takes is the matter of `OtherReserves` |
| `OtherReserves.OthersAreSpared` | pallets/stake/src/lib.rs:662-955 | on every clean run no call and no transition takes anything that other pallets have reserved, and no reserve falls by more than this pallet holds |
| `OtherReserves.ReleaseTakesExactly` | pallets/stake/src/lib.rs:1061 | on every ledger a release takes from other pallets exactly when it gives back more than this pallet holds, and then exactly the excess |
| `OtherReserves.OneReleaseTakesExactly` | pallets/stake/src/lib.rs:764-939 | on every state, judged before the call: an accepted bond_less or revoke takes from other pallets exactly when the amount that can be given back is more than this pallet holds |
| `OtherReserves.LeaveTakesExactly` | pallets/stake/src/lib.rs:797-806 | on every state in which the candidates list a nominator's bonds: leaving gives back their sum as far as the reserve goes, and takes from others exactly when that is more than this pallet holds |
| `OtherReserves.DispatchTakesExactly` | pallets/stake/src/lib.rs:662-939 | on every state any call takes from other pallets exactly what it books as held below zero |
| `Conservation.NewRoundConserves` | pallets/stake/src/lib.rs:940-955 | on every state a transition mints the payout, credits each account its rewards, and otherwise only moves money between free and reserved, booked as held |
| `Payout.PayoutBound` | pallets/stake/src/lib.rs:1079-1125 | for any awards within the points and any snapshots that add up, a payout mints at most the issuance and half a unit per rounded share |
| `Payout.AuthorMintBound` | pallets/stake/src/lib.rs:1100-1119 | what one author's blocks mint is at most its due and half a unit per share of the split |
| `Payout.AuthorMintLow` | pallets/stake/src/lib.rs:1100-1119 | when everybody listed exists, what one author's blocks mint falls short of its due by no more than the truncation, the rounding and one existential deposit for each share of the split |
| `Selection.SelectionIsOptimal` | pallets/stake/src/lib.rs:1167-1181 | a choice that no tie order rules out is a heaviest one among all that fit |
| `Selection.BestChoiceExists` | pallets/stake/src/lib.rs:1167-1181 | every pool has a choice that the sort can make |
| `Inflation.AnnualToRoundKeepsOrder` | pallets/stake/src/inflation.rs:58-65 | round rates keep the order of a valid schedule, and a year of rounds at a round rate reaches the annual rate up to less than one part per round and never exceeds it |
| `Inflation.IssuanceMonotone` | pallets/stake/src/lib.rs:980-994 | with an ordered schedule issuance lies between the shares at the lowest and highest rate and grows with stake and supply |
| `Inflation.IssuanceByStake` | pallets/stake/src/lib.rs:980-994 | the issuance is the one integer nearest to the supply times the lowest rate below the expected stake, times the highest above it, times the ideal one in between |
| `Issuance.IssuanceInRange` | pallets/stake/src/inflation.rs:68-75 | on every run from an ordered genesis schedule the issuance for any stake lies between the supply times the lowest and the highest round rate, however often governance resets schedule and expectations |
| `PerThing.MulUnique` | pallets/stake/src/inflation.rs:71-73 | the product of a part and an amount is the one integer nearest to the exact quotient, halves going down |
| `PerThing.ShareUnique` | pallets/stake/src/lib.rs:1094-1116 | the share of a part in a whole is the one number of billionths that truncation allows, for any part and whole |
| `PerThing.SharesFit` | pallets/stake/src/lib.rs:1094-1117 | shares of one total whose numerators fit in it sum to at most one |
| `PerThing.MulCeilUnique` | pallets/author-filter/src/lib.rs:73 | the number of eligible authors is the one integer that a ceiling allows |
| `AuthorDraw.DrawIsExact` | pallets/author-filter/src/lib.rs:70-143 | for every beacon and ratio the draw yields exactly ceil(ratio * n) different validators of the set, all at 100%, none exactly when ratio or set is empty |
| `AuthorDraw.DrawElement` | pallets/author-filter/src/lib.rs:80-107 | the i-th account drawn stands, among the validators not drawn before it and in the order of the set, at the beacon's value for the bytes of i and of the relay height, cut to 32 bits, modulo how many are left |
| `AuthorDraw.AnybodyCanBeDrawn` | pallets/author-filter/src/lib.rs:98-107 | with a ratio that is not zero each validator is eligible under some beacon |
| `AuthorDraw.DrawPartitions` | pallets/author-filter/src/lib.rs:80-107 | eligible and remaining validators together stay a permutation of the set after every removal |
| `OrderedSets.SortedUnique` | pallets/stake/src/set.rs:25-27 | a sorted vector of bonds is determined by the map it stands for |
| `OrderedSets.FromKeepsMap` | pallets/stake/src/set.rs:37-41 | sorting and removing duplicates gives a strictly sorted vector in which the first bond of each owner was kept, and changes nothing in one already sorted |
| `OrderedSets.StableSortSorts` | pallets/stake/src/set.rs:37-41 | the sort orders, permutes, and keeps the order of bonds of one owner |
| `OrderedSets.BinarySearch` | pallets/stake/src/set.rs:51-76 | on a strictly increasing vector it decides membership and otherwise gives the place to insert at |
| `OrderedSets.Search` | pallets/stake/src/lib.rs:87-105 | bonds are found by owner alone, whatever their amount |
| `OrderedSets.OrderedSet.From` | pallets/stake/src/set.rs:37-41 | the set holds the first bond given for each owner, in strict order |
| `OrderedSets.OrderedSet.Insert` | pallets/stake/src/set.rs:51-59 | inserts exactly when the owner is absent, keeping order and every other entry |
| `OrderedSets.OrderedSet.Remove` | pallets/stake/src/set.rs:63-71 | removes the owner's entry whatever its amount, keeping order and every other entry |
| `OrderedSets.OrderedSet.Contains` | pallets/stake/src/set.rs:74-76 | decides whether the owner has an entry |
| `OrderedSets.OrderedSet.Clear` | pallets/stake/src/set.rs:79-81 | leaves the empty set |
| `Records.FilterOut` | pallets/stake/src/lib.rs:183-197 | the scan that drops one owner's bond keeps all others in order and reports the amount dropped, if any |
| `Records.Validator.constructor` | pallets/stake/src/lib.rs:149-159 | a new candidate is active, has no nominators, and its total is its bond |
| `Records.Validator.BondMore` | pallets/stake/src/lib.rs:166-169 | bond and total grow by the same amount, nothing else changes |
| `Records.Validator.BondLess` | pallets/stake/src/lib.rs:171-179 | refuses, changing nothing, unless something is left of the bond; otherwise bond and total shrink by the same amount |
| `Records.Validator.RmNominator` | pallets/stake/src/lib.rs:181-199 | drops the nominator's entry and its amount from the total; no effect when absent |
| `Records.Validator.AddNominator` | pallets/stake/src/lib.rs:201-205 | adds the amount to the total even when the nominator is already listed and nothing is inserted |
| `Records.Validator.UpdateNominator` | pallets/stake/src/lib.rs:207-229 | sets the nominator's amount and moves the total by the difference; no effect when absent |
| `Records.Validator.IncNominator` | pallets/stake/src/lib.rs:230-238 | raises the nominator's amount and the total alike, in place, keeping the order |
| `Records.Validator.DecNominator` | pallets/stake/src/lib.rs:239-247 | lowers the nominator's amount and the total alike, in place, keeping the order |
| `Records.Nominator.constructor` | pallets/stake/src/lib.rs:285-293 | a new nominator has one nomination, which is its total |
| `Records.Nominator.AddNomination` | pallets/stake/src/lib.rs:294-302 | adds a nomination and its amount exactly when the validator is not nominated yet |
| `Records.Nominator.RmNomination` | pallets/stake/src/lib.rs:305-327 | drops a nomination and its amount and reports what remains in all; None, with nothing changed, when not nominated |
| `Records.Nominator.SwapNomination` | pallets/stake/src/lib.rs:329-385 | both branches of the swap, including the old entry that a merge leaves behind, and the two amounts reported |
| `Records.Nominator.IncNomination` | pallets/stake/src/lib.rs:387-396 | raises a nomination and the total alike, or reports that it does not exist |
| `Records.Nominator.DecNomination` | pallets/stake/src/lib.rs:400-418 | lowers a nomination and the total alike, and tells a missing nomination from one of which nothing would be left |
| `StakePallet.Pallet.SetStakingExpectations` | pallets/stake/src/lib.rs:621-637 | refuses unordered expectations and otherwise changes those alone |
| `StakePallet.Pallet.SetInflation` | pallets/stake/src/lib.rs:641-658 | refuses an unordered schedule and otherwise changes the round rates alone |
| `StakePallet.Pallet.JoinCandidates` | pallets/stake/src/lib.rs:662-685 | every check in order, and on success the reserve, the record, the pool entry and Total |
| `StakePallet.Pallet.LeaveCandidates` | pallets/stake/src/lib.rs:690-710 | queues the exit one bond duration ahead, marks the record and drops the pool entry |
| `StakePallet.Pallet.GoOffline` | pallets/stake/src/lib.rs:713-727 | marks an active candidate idle and drops its pool entry |
| `StakePallet.Pallet.GoOnline` | pallets/stake/src/lib.rs:729-745 | puts an idle candidate back into the pool with its current total |
| `StakePallet.Pallet.CandidateBondMore` | pallets/stake/src/lib.rs:747-761 | reserve, bond, total and pool entry move together; Total does not |
| `StakePallet.Pallet.CandidateBondLess` | pallets/stake/src/lib.rs:764-778 | release, bond, total and pool entry move together above the floor; Total does not |
| `StakePallet.Pallet.NominatorJoinsValidator` | pallets/stake/src/lib.rs:995-1026 | refuses a second bond or one over the cap; otherwise reserve, record, pool entry and Total grow by the amount |
| `StakePallet.Pallet.JoinNominators` | pallets/stake/src/lib.rs:781-794 | both records get the bond, or an error comes before any write |
| `StakePallet.Pallet.NominatorLeavesValidator` | pallets/stake/src/lib.rs:1040-1078 | releases the recorded amount and takes it out of the candidate, the pool entry and Total |
| `StakePallet.Pallet.LeaveNominators` | pallets/stake/src/lib.rs:797-806 | the loop of departures in ascending order, ended by the first failure with what it did kept |
| `StakePallet.Pallet.NominateNew` | pallets/stake/src/lib.rs:809-852 | both caps and all checks in the code's order, then both records |
| `StakePallet.Pallet.SwitchNomination` | pallets/stake/src/lib.rs:856-881 | both candidates and the nominator after either branch, with no cap checked |
| `StakePallet.Pallet.RevokeNomination` | pallets/stake/src/lib.rs:1027-1039 | refuses to fall below the floor before it departs |
| `StakePallet.Pallet.NominatorBondMore` | pallets/stake/src/lib.rs:889-911 | reserve and both records grow by the amount; Total does not |
| `StakePallet.Pallet.NominatorBondLess` | pallets/stake/src/lib.rs:914-939 | three floors checked in order, then release and both records shrink; Total does not |
| `StakePallet.Pallet.IsValidator` | pallets/stake/src/lib.rs:966-968 | binary search decides membership in the validator set |
| `StakePallet.Pallet.UpdateActive` | pallets/stake/src/lib.rs:970-978 | the pool keeps one entry for the candidate, with its new total |
| `StakePallet.Pallet.NoteAuthor` | pallets/stake/src/lib.rs:1201-1206 | the author's award for the round rises by twenty, everybody else's stays, and so do the round's points rise by twenty |
| `StakePallet.Pallet.PayAuthor` | pallets/stake/src/lib.rs:1100-1119 | the loop over one snapshot changes each free balance by exactly what the one split of the reward says (`PayoutSplit.SplitUnique`), and no reserve |
| `StakePallet.Pallet.PayStakers` | pallets/stake/src/lib.rs:1079-1125 | whatever order the awards are drained in, the payment is the one that `PayoutSplit.PayoutExactly` determines, and the round's awards are gone |
| `StakePallet.Pallet.ReleaseBond` | pallets/stake/src/lib.rs:1135-1147 | on every state one step of the inner exit loop releases the bond and drops the nomination, and the whole record exactly when nothing remains of the total; nobody else's record changes |
| `StakePallet.Pallet.ExecuteDelayedValidatorExits` | pallets/stake/src/lib.rs:1126-1165 | executes the exits due in ascending order and keeps exactly the others queued |
| `StakePallet.Pallet.BestCandidatesBecomeValidators` | pallets/stake/src/lib.rs:1167-1195 | for any tie order of the sort the chosen set is a best choice, the vector lists it in order, each chosen has stored the fee, bond, nominators and total of its record and no other snapshot changes, and the count and total returned are those of the chosen set |
| `StakePallet.Pallet.OnFinalize` | pallets/stake/src/lib.rs:940-955 | at the end of a round payment, exits, selection and the new round in this order; nothing otherwise |
| `Runtime.Runtime.CanAuthor` | pallets/author-filter/src/lib.rs:70-143 | the loop never indexes outside the vector and its answer is membership in the draw that `AuthorDraw.DrawElement` determines |
| `Runtime.Runtime.OnInitialize` | pallets/author-inherent/src/lib.rs:97-100 | opens a block with no author |
| `Runtime.Runtime.SetAuthor` | pallets/author-inherent/src/lib.rs:107-131 | admits the first eligible author of a block, tells the staking pallet of it, and tells the two refusals apart, changing nothing |
| `Runtime.Runtime.Transact` | pallets/stake/src/lib.rs:594-939 | each dispatchable is the step of the chain that the theorems about runs speak of |
| `Runtime.Runtime.OnFinalize` | pallets/author-inherent/src/lib.rs:133-144 | a block with an author is finalized as the chain's step, with a choice of validators that this step allows |
| `Runtime.BuildGenesis` | pallets/stake/src/lib.rs:558-591 | genesis is the initial state of runs: joins in order with failures ignored, the first choice, round 1 |

## Left out

- Runtime.Runtime.OnFinalize: requires an author and exact indexes where the code panics; `EveryRun.AlwaysKept` shows that the indexes are exact on every run, and a block without an author has no finalizing step.
- Runtime.BuildGenesis: requires that every configured staker can cover its balance, since genesis panics otherwise.
- Issuance.IssuanceInRange: needs an ordered schedule at genesis, because the genesis configuration is stored without a check; `set_inflation` checks every later one.
- Fixed widths of balances (128 bits), points and rounds (32 bits) and Perbill's intermediate products: amounts are integers. On clean runs bonds, nominations, totals and releases are shown not to go below zero; `Total` does go below zero, and `TotalLocked` says exactly when.
- `Perbill` and `Percent` live in a library outside the repository: multiplication rounds to nearest with halves down, as pallets/stake/src/tests.rs:362 and pallets/stake/src/tests.rs:953 require; `mul_ceil` rounds up; `from_rational_approximation` is assumed to truncate to a whole number of billionths, with a zero denominator read as one and the numerator capped by the denominator.
- The library's sort, dedup, binary search and vector filters are written out in Dafny; the unstable sort leaves the order of ties open.
- The balances pallet is a ledger of free and reserved amounts with `reserve`, `unreserve` and `deposit_into_existing`; locks, dust removal and the existential check on withdrawals are not part of this model.
- Other pallets appear only through the event `Others`, which may change anything in the ledger except take away what this pallet has reserved.
- The randomness source is an arbitrary function of the two bytes of its subject that vary.
- Events, digests, weights, origins and traces: callers are taken as authenticated; the counts and totals that only feed events appear where the code returns them.
- Inherent data, the preliminary author check and `find_author`: decoding and plumbing around the same membership test.
- AuthorDraw.AnybodyCanBeDrawn: for sets of at most 2^32 validators; `MaxValidators` is a 32-bit number in the code and unbounded here.
- Payout.AuthorMintLow: needs that the author and its nominators exist, since the code mints nothing to an account that does not.
- Storage changes of a failing call are kept, as the code has no transactional layer; `Outcomes.ErrorsChangeNothing` says when there are none.
- The closures of the source that scan a vector and drop one owner share one scan here, `Records.FilterOut`.
