/** What rounds keep on every run: points are the sum of what was awarded, every completed round has
    a full round's points, only unpaid rounds still have awards, and whoever has an award in one was
    chosen for it and has a snapshot stored for it. */
module Rounds {
  import opened Primitives
  import opened Sums
  import opened Ascending
  import opened StakeSpec
  import opened Indexes

  type PointsMap = map<nat, nat>
  type AwardsMap = map<nat, Awards>
  type StakeMap = map<nat, Exposures>

  /** Round `r` has started by round `round`, and its payment is still ahead. */
  predicate Unpaid(r: nat, round: nat) {
    1 <= r <= round < r + cfg.bondDuration
  }

  const FULL_ROUND: nat := 20 * cfg.blocksPerRound

  ghost predicate AwardsUnpaid(round: nat, awarded: AwardsMap) {
    forall r :: r in awarded ==> Unpaid(r, round)
  }

  /** The total points of an unpaid round are the sum of the points awarded in it. */
  ghost predicate PointsMatch(round: nat, points: PointsMap, awarded: AwardsMap) {
    forall r :: Unpaid(r, round) ==> PointsOf(points, r) == Sum(AwardsOf(awarded, r))
  }

  ghost predicate RoundsFull(round: nat, points: PointsMap) {
    && (forall r :: 1 <= r < round ==> PointsOf(points, r) == FULL_ROUND)
    && (forall r :: round < r ==> PointsOf(points, r) == 0)
  }

  /** The validator set of the round is a sorted vector, each with a snapshot for the round. */
  ghost predicate ValidatorsExposed(round: nat, validators: seq<AccountId>, atStake: StakeMap) {
    Increasing(validators) && forall v :: v in validators ==> v in ExposuresOf(atStake, round)
  }

  /** Whoever has an award has a snapshot for that round; in the current round, is a validator. */
  ghost predicate AwardsExposed(round: nat, validators: seq<AccountId>, atStake: StakeMap, awarded: AwardsMap) {
    && (forall r, v :: v in AwardsOf(awarded, r) ==> v in ExposuresOf(atStake, r))
    && (forall v :: v in AwardsOf(awarded, round) ==> v in validators)
  }

  ghost predicate RoundsKept(s: State) {
    && 1 <= s.round
    && AwardsUnpaid(s.round, s.awarded)
    && PointsMatch(s.round, s.points, s.awarded)
    && RoundsFull(s.round, s.points)
    && ValidatorsExposed(s.round, s.validators, s.atStake)
    && AwardsExposed(s.round, s.validators, s.atStake, s.awarded)
  }

  lemma SameRoundsKept(s: State, s': State)
    requires RoundsKept(s) && SameRounds(s, s')
    ensures RoundsKept(s')
  {
    hide AwardsUnpaid, PointsMatch, RoundsFull, ValidatorsExposed, AwardsExposed;
  }

  // An author is noted.

  lemma NotePoints(round: nat, points: PointsMap, awarded: AwardsMap, a: AccountId)
    requires 1 <= round && AwardsUnpaid(round, awarded) && PointsMatch(round, points, awarded) && RoundsFull(round, points)
    ensures var awards := AwardsOf(awarded, round);
      var points' := points[round := PointsOf(points, round) + 20];
      var awarded' := awarded[round := awards[a := (if a in awards then awards[a] else 0) + 20]];
      AwardsUnpaid(round, awarded') && PointsMatch(round, points', awarded') && RoundsFull(round, points')
  {
    var awards := AwardsOf(awarded, round);
    var awards': Awards := awards[a := (if a in awards then awards[a] else 0) + 20];
    var points' := points[round := PointsOf(points, round) + 20];
    SumUpdate(awards, a, awards'[a]);
    forall r: nat ensures PointsOf(points', r) == PointsOf(points, r) + if r == round then 20 else 0 {
    }
    forall r: nat ensures AwardsOf(awarded[round := awards'], r) == if r == round then awards' else AwardsOf(awarded, r) {
    }
  }

  lemma NoteExposed(round: nat, validators: seq<AccountId>, atStake: StakeMap, awarded: AwardsMap, a: AccountId, x: nat)
    requires AwardsExposed(round, validators, atStake, awarded) && ValidatorsExposed(round, validators, atStake)
    requires a in validators
    ensures AwardsExposed(round, validators, atStake, awarded[round := AwardsOf(awarded, round)[a := x]])
  {
    var awarded' := awarded[round := AwardsOf(awarded, round)[a := x]];
    forall r: nat, v ensures v in AwardsOf(awarded', r) ==> v in AwardsOf(awarded, r) || (r == round && v == a) {
    }
  }

  lemma NoteAuthorKeeps(s: State, a: AccountId)
    requires RoundsKept(s) && a in s.validators
    ensures RoundsKept(NoteAuthor(s, a))
    ensures PointsOf(NoteAuthor(s, a).points, s.round) == PointsOf(s.points, s.round) + 20
  {
    hide RoundsKept;
    var awards := AwardsOf(s.awarded, s.round);
    var x: nat := (if a in awards then awards[a] else 0) + 20;
    NotedKept(s, s.(awarded := s.awarded[s.round := awards[a := x]],
                    points := s.points[s.round := PointsOf(s.points, s.round) + 20]), a, x);
  }

  lemma NotedKept(s: State, s': State, a: AccountId, x: nat)
    requires RoundsKept(s) && a in s.validators
    requires x == (if a in AwardsOf(s.awarded, s.round) then AwardsOf(s.awarded, s.round)[a] else 0) + 20
    requires s' == s.(awarded := s.awarded[s.round := AwardsOf(s.awarded, s.round)[a := x]],
                      points := s.points[s.round := PointsOf(s.points, s.round) + 20])
    ensures RoundsKept(s')
  {
    hide AwardsUnpaid, PointsMatch, RoundsFull, ValidatorsExposed, AwardsExposed;
    NotePoints(s.round, s.points, s.awarded, a);
    NoteExposed(s.round, s.validators, s.atStake, s.awarded, a, x);
  }

  // A round ends.

  /** The awards after the transition into `next`: the round paid is drained. */
  function Drained(awarded: AwardsMap, next: nat): AwardsMap {
    if next <= cfg.bondDuration then awarded else awarded - {next - cfg.bondDuration}
  }

  /** The transition into `next` stores the snapshots `taken` and may take away some of the round
      paid; every other snapshot stays as it was. */
  ghost predicate SnapshotsMoved(atStake: StakeMap, atStake': StakeMap, next: nat, taken: Exposures) {
    && (forall v :: v in taken ==> v in ExposuresOf(atStake', next) && ExposuresOf(atStake', next)[v] == taken[v])
    && (forall r: nat, v :: v in ExposuresOf(atStake', r) && (r != next || v !in taken) ==>
          v in ExposuresOf(atStake, r) && ExposuresOf(atStake', r)[v] == ExposuresOf(atStake, r)[v])
    && (forall r: nat, v :: v in ExposuresOf(atStake, r) && r != next && r + cfg.bondDuration != next ==>
          v in ExposuresOf(atStake', r) && ExposuresOf(atStake', r)[v] == ExposuresOf(atStake, r)[v])
  }

  ghost function SnapshotsOf(c: Candidates, chosen: set<AccountId>): (taken: Exposures)
    requires chosen <= c.Keys
    ensures taken.Keys == chosen
  {
    map v | v in chosen :: SnapshotOf(c[v])
  }

  lemma TakeMoves(atStake: StakeMap, next: nat, payees: set<AccountId>, taken: Exposures)
    requires next > cfg.bondDuration
    ensures var paid := next - cfg.bondDuration;
      var mid := if payees == {} then atStake else atStake[paid := ExposuresOf(atStake, paid) - payees];
      SnapshotsMoved(atStake, if taken == map[] then mid else mid[next := ExposuresOf(mid, next) + taken], next, taken)
  {
  }

  lemma StoreMoves(atStake: StakeMap, next: nat, taken: Exposures)
    ensures SnapshotsMoved(atStake, if taken == map[] then atStake else atStake[next := ExposuresOf(atStake, next) + taken], next, taken)
  {
  }

  /** What a transition writes of what belongs to rounds. */
  lemma NewRoundEffect(s: State, chosen: set<AccountId>)
    requires Selectable(s, chosen)
    ensures var s', next := NewRound(s, chosen), s.round + 1;
      && s'.round == next && s'.validators == List(chosen)
      && s'.points == s.points && s'.awarded == Drained(s.awarded, next)
      && chosen <= s'.candidates.Keys
      && SnapshotsMoved(s.atStake, s'.atStake, next, SnapshotsOf(s'.candidates, chosen))
  {
    hide BeforeSelection, DueExits, BestChoice, PayStakers, SnapshotsMoved;
    var s', next := NewRound(s, chosen), s.round + 1;
    BeforeSelectionFrame(s);
    var p := PayStakers(s, next);
    var taken := SnapshotsOf(s'.candidates, chosen);
    assert taken == map[] <==> chosen == {};
    assert s'.atStake == if taken == map[] then p.atStake else p.atStake[next := ExposuresOf(p.atStake, next) + taken];
    hide NewRound;
    PayRounds(s, next, taken);
  }

  lemma PayRounds(s: State, next: nat, taken: Exposures)
    ensures PayStakers(s, next).awarded == Drained(s.awarded, next)
    ensures var p := PayStakers(s, next);
      SnapshotsMoved(s.atStake, if taken == map[] then p.atStake else p.atStake[next := ExposuresOf(p.atStake, next) + taken], next, taken)
  {
    hide Payees, PaidLedger, RoundIssuance, SnapshotsMoved;
    if next <= cfg.bondDuration {
      StoreMoves(s.atStake, next, taken);
    } else {
      var r := next - cfg.bondDuration;
      TakeMoves(s.atStake, next, Payees(AwardsOf(s.awarded, r), PointsOf(s.points, r), RoundIssuance(s, next)), taken);
    }
  }

  lemma NextPoints(round: nat, points: PointsMap, awarded: AwardsMap)
    requires 1 <= round && AwardsUnpaid(round, awarded) && PointsMatch(round, points, awarded) && RoundsFull(round, points)
    requires PointsOf(points, round) == FULL_ROUND
    ensures PointsOf(points, round + 1) == 0
    ensures var awarded' := Drained(awarded, round + 1);
      AwardsUnpaid(round + 1, awarded') && PointsMatch(round + 1, points, awarded') && RoundsFull(round + 1, points)
  {
    var awarded' := Drained(awarded, round + 1);
    forall r: nat | Unpaid(r, round + 1) ensures PointsOf(points, r) == Sum(AwardsOf(awarded', r)) {
      if r == round + 1 {
        assert r !in awarded;
      } else {
        assert Unpaid(r, round);
        assert AwardsOf(awarded', r) == AwardsOf(awarded, r);
      }
    }
  }

  lemma NextValidators(atStake: StakeMap, atStake': StakeMap, next: nat, chosen: set<AccountId>, taken: Exposures)
    requires SnapshotsMoved(atStake, atStake', next, taken) && chosen <= taken.Keys
    ensures ValidatorsExposed(next, List(chosen), atStake')
  {
    forall v | v in List(chosen) ensures v in ExposuresOf(atStake', next) {
      assert v in taken;
    }
  }

  lemma NextExposed(round: nat, validators: seq<AccountId>, atStake: StakeMap, atStake': StakeMap, awarded: AwardsMap,
                    chosen: set<AccountId>, taken: Exposures)
    requires AwardsUnpaid(round, awarded) && AwardsExposed(round, validators, atStake, awarded)
    requires SnapshotsMoved(atStake, atStake', round + 1, taken)
    ensures AwardsExposed(round + 1, List(chosen), atStake', Drained(awarded, round + 1))
  {
    hide List;
    forall r: nat, v | v in AwardsOf(Drained(awarded, round + 1), r)
      ensures v in ExposuresOf(atStake', r) && r != round + 1
    {
      assert Unpaid(r, round) && v in AwardsOf(awarded, r);
      assert v in ExposuresOf(atStake, r);
    }
  }

  lemma NextRoundKept(s: State, s': State, chosen: set<AccountId>, taken: Exposures)
    requires RoundsKept(s) && PointsOf(s.points, s.round) == FULL_ROUND
    requires s'.round == s.round + 1 && s'.validators == List(chosen) && s'.points == s.points
    requires s'.awarded == Drained(s.awarded, s.round + 1)
    requires SnapshotsMoved(s.atStake, s'.atStake, s.round + 1, taken) && chosen <= taken.Keys
    ensures RoundsKept(s') && PointsOf(s'.points, s'.round) == 0
  {
    hide AwardsUnpaid, PointsMatch, RoundsFull, ValidatorsExposed, AwardsExposed, SnapshotsMoved, Drained;
    NextPoints(s.round, s.points, s.awarded);
    NextValidators(s.atStake, s'.atStake, s.round + 1, chosen, taken);
    NextExposed(s.round, s.validators, s.atStake, s'.atStake, s.awarded, chosen, taken);
  }

  lemma NewRoundKeeps(s: State, chosen: set<AccountId>)
    requires Selectable(s, chosen) && RoundsKept(s)
    requires PointsOf(s.points, s.round) == FULL_ROUND
    ensures RoundsKept(NewRound(s, chosen))
    ensures PointsOf(NewRound(s, chosen).points, s.round + 1) == 0
  {
    hide NewRound, Selectable, RoundsKept, SnapshotsMoved, Drained, SnapshotsOf, FULL_ROUND;
    NewRoundEffect(s, chosen);
    NextRoundKept(s, NewRound(s, chosen), chosen, SnapshotsOf(NewRound(s, chosen).candidates, chosen));
  }
}
