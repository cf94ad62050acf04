/** What a call that fails has changed: nothing, except for the one call that departs from several
    validators in a loop. */
module Outcomes {
  import opened Primitives
  import opened Sums
  import opened Ascending
  import opened Currency
  import opened Inflation
  import opened StakeSpec
  import opened Books
  import opened Solvency
  import opened Switching
  import opened Departures

  /** The `i`-th validator visited is reached: the departures from those before it all succeed. */
  ghost predicate Reached(c: Candidates, n: AccountId, vs: seq<AccountId>, i: nat)
    requires i <= |vs|
  {
    forall j :: 0 <= j < i ==> Backs(c, vs[j], n)
  }

  /** The loop departs from `v`. */
  ghost predicate Departs(c: Candidates, n: AccountId, vs: seq<AccountId>, v: AccountId) {
    exists i :: 0 <= i < |vs| && vs[i] == v && Reached(c, n, vs, i + 1)
  }

  lemma FirstDeparture(s: State, n: AccountId, v: AccountId)
    ensures var left := NominatorLeavesValidator(s, n, v);
      && (left.result.Ok? <==> Backs(s.candidates, v, n))
      && (left.result.Err? ==> left.state == s)
      && (left.result.Err? && v in s.candidates ==> left.result == Err(NominatorDNE))
      && left.state.nominators == s.nominators && left.state.candidates.Keys == s.candidates.Keys
      && forall w, m :: Backs(left.state.candidates, w, m) <==> Backs(s.candidates, w, m) && !(w == v && m == n)
  {
  }

  lemma NoneDepart(c: Candidates, n: AccountId, vs: seq<AccountId>)
    requires vs == [] || !Backs(c, vs[0], n)
    ensures forall w :: !Departs(c, n, vs, w)
  {
    hide Backs;
  }

  lemma DepartsFirst(c: Candidates, c': Candidates, n: AccountId, vs: seq<AccountId>, w: AccountId)
    requires Distinct(vs) && vs != [] && Backs(c, vs[0], n)
    requires forall u :: Backs(c', u, n) <==> Backs(c, u, n) && u != vs[0]
    ensures Departs(c, n, vs, w) <==> w == vs[0] || Departs(c', n, vs[1..], w)
  {
    hide Backs;
    assert Reached(c, n, vs, 1);
    forall i: nat | 1 <= i <= |vs| ensures Reached(c, n, vs, i) <==> Reached(c', n, vs[1..], i - 1) {
      if Reached(c, n, vs, i) {
        forall j | 0 <= j < i - 1 ensures Backs(c', vs[1..][j], n) {
          assert vs[1..][j] == vs[j + 1];
        }
      }
      if Reached(c', n, vs[1..], i - 1) {
        forall j | 0 <= j < i ensures Backs(c, vs[j], n) {
          if j > 0 {
            assert vs[j] == vs[1..][j - 1];
          }
        }
      }
    }
    if Departs(c, n, vs, w) && w != vs[0] {
      var i :| 0 <= i < |vs| && vs[i] == w && Reached(c, n, vs, i + 1);
      assert vs[1..][i - 1] == w && Reached(c', n, vs[1..], i);
    }
    if Departs(c', n, vs[1..], w) {
      var i :| 0 <= i < |vs[1..]| && vs[1..][i] == w && Reached(c', n, vs[1..], i + 1);
      assert vs[i + 1] == w && Reached(c, n, vs, i + 2);
    }
  }

  lemma {:induction false} LeaveEachExactly(s: State, n: AccountId, vs: seq<AccountId>)
    requires Distinct(vs)
    ensures var left := LeaveEach(s, n, vs);
      && (left.result.Ok? <==> forall v :: v in vs ==> Backs(s.candidates, v, n))
      && (left.result.Err? && (forall v :: v in vs ==> v in s.candidates) ==> left.result == Err(NominatorDNE))
      && left.state.nominators == s.nominators && left.state.candidates.Keys == s.candidates.Keys
      && (forall w, m :: Backs(left.state.candidates, w, m) <==>
            Backs(s.candidates, w, m) && !(m == n && Departs(s.candidates, n, vs, w)))
    decreases |vs|
  {
    hide Backs, NominatorLeavesValidator, Departs;
    if vs == [] {
      NoneDepart(s.candidates, n, vs);
    } else {
      var left := NominatorLeavesValidator(s, n, vs[0]);
      FirstDeparture(s, n, vs[0]);
      assert forall v :: v in vs <==> v == vs[0] || v in vs[1..];
      if left.result.Ok? {
        LeaveEachExactly(left.state, n, vs[1..]);
        forall w ensures Departs(s.candidates, n, vs, w) <==> w == vs[0] || Departs(left.state.candidates, n, vs[1..], w) {
          DepartsFirst(s.candidates, left.state.candidates, n, vs, w);
        }
        assert vs[0] !in vs[1..];
      } else {
        NoneDepart(s.candidates, n, vs);
      }
    }
  }

  /** Leaving, on every state: it succeeds exactly when every validator nominated also lists the
      nominator. Otherwise it departs from those before the first that does not, in ascending order,
      and from no other. */
  lemma LeaveNominatorsExactly(s: State, acc: AccountId)
    requires acc in s.nominators
    ensures var left, vs := LeaveNominators(s, acc), List(s.nominators[acc].nominations.Keys);
      && (left.result.Ok? <==> forall v :: Nominates(s.nominators, acc, v) ==> Backs(s.candidates, v, acc))
      && (forall w, m :: Backs(left.state.candidates, w, m) <==>
            Backs(s.candidates, w, m) && !(m == acc && Departs(s.candidates, acc, vs, w)))
      && left.state.nominators == (if left.result.Ok? then s.nominators - {acc} else s.nominators)
      && (left.result.Err? && (forall v :: Nominates(s.nominators, acc, v) ==> v in s.candidates) ==> left.result == Err(NominatorDNE))
  {
    var keys := s.nominators[acc].nominations.Keys;
    var vs := List(keys);
    hide Backs, Departs, LeaveEach, List;
    LeaveEachExactly(s, acc, vs);
    assert forall v :: Nominates(s.nominators, acc, v) <==> v in vs;
  }

  /** So a failed departure of all has changed nothing exactly when the least validator nominated is
      one that does not list the nominator. */
  lemma FailedLeaveExactly(s: State, acc: AccountId)
    requires acc in s.nominators && LeaveNominators(s, acc).result.Err?
    ensures s.nominators[acc].nominations.Keys != {}
    ensures LeaveNominators(s, acc).state == s <==> !Backs(s.candidates, Least(s.nominators[acc].nominations.Keys), acc)
  {
    var keys := s.nominators[acc].nominations.Keys;
    var vs := List(keys);
    hide Backs, Departs, LeaveEach, List;
    LeaveEachExactly(s, acc, vs);
    assert vs != [];
    FirstIsLeast(vs, keys);
    LeaveEachStops(s, acc, vs);
    FirstOrNone(s.candidates, acc, vs);
  }

  lemma FirstOrNone(c: Candidates, n: AccountId, vs: seq<AccountId>)
    requires vs != []
    ensures Departs(c, n, vs, vs[0]) <==> Backs(c, vs[0], n)
  {
    hide Backs;
    if Backs(c, vs[0], n) {
      assert Reached(c, n, vs, 1);
    }
  }

  lemma LeaveEachStops(s: State, n: AccountId, vs: seq<AccountId>)
    requires vs != []
    ensures !Backs(s.candidates, vs[0], n) ==> LeaveEach(s, n, vs).state == s
  {
    hide Backs, NominatorLeavesValidator;
    FirstDeparture(s, n, vs[0]);
  }

  lemma OtherErrorsChangeNothing(s: State, who: AccountId, call: Call)
    requires !call.CallLeaveNominators? && !call.CallRevokeNomination? && !call.CallJoinNominators?
    requires Dispatch(s, who, call).result.Err?
    ensures Dispatch(s, who, call).state == s
  {
    hide IsValidRate, IsValidExpectation, AnnualToRound, PutCandidate, Reserve, Unreserve, CanReserve, SwapNomination,
      RmNominator, AddNominator, UpdateNominator, AdjustNominator, AdjustNomination;
  }

  lemma RevokeErrorChangesNothing(s: State, acc: AccountId, v: AccountId)
    requires RevokeNomination(s, acc, v).result.Err?
    ensures RevokeNomination(s, acc, v).state == s
  {
    hide NominatorLeavesValidator;
    FirstDeparture(s, acc, v);
  }

  lemma JoinErrorChangesNothing(s: State, acc: AccountId, v: AccountId, amount: nat)
    requires JoinNominators(s, acc, v, amount).result.Err?
    ensures JoinNominators(s, acc, v, amount).state == s
  {
  }

  /** Every call that returns an error leaves all storage and balances as they were: on every state,
      but for leaving the nominators, which needs the books to be sound. */
  lemma ErrorsChangeNothing(s: State, who: AccountId, call: Call)
    requires Dispatch(s, who, call).result.Err?
    requires call.CallLeaveNominators? ==> Solvent(s)
    ensures Dispatch(s, who, call).state == s
  {
    hide Solvent;
    match call
    case CallLeaveNominators =>
      hide LeaveNominators, Moved, Sum, Totals, Backs;
      LeaveNominatorsAllOrNothing(s, who);
    case CallRevokeNomination(v) =>
      hide RevokeNomination;
      RevokeErrorChangesNothing(s, who, v);
    case CallJoinNominators(v, amount) =>
      hide JoinNominators;
      JoinErrorChangesNothing(s, who, v, amount);
    case _ =>
      hide Dispatch;
      OtherErrorsChangeNothing(s, who, call);
  }

  /** A leave called right after a switch that merges fails and, unless the old validator is the least
      of those nominated, has then already released part of the stake. Once the stale bond has been
      switched on to a third candidate, leaving succeeds again (`StaleStake.LeavingTakesFromOthers`). */
  lemma LeavingAfterMerge(s: State, acc: AccountId, from: AccountId, to: AccountId)
    requires Solvent(s) && Merges(s, acc, to)
    requires SwitchNomination(s, acc, from, to).result.Ok?
    ensures var s' := SwitchNomination(s, acc, from, to).state;
      && acc in s'.nominators
      && LeaveNominators(s', acc).result == Err(NominatorDNE)
      && (LeaveNominators(s', acc).state == s' <==> from == Least(s.nominators[acc].nominations.Keys))
  {
    hide Solvent, SwitchNomination, LeaveNominators, Sum;
    var s' := SwitchNomination(s, acc, from, to).state;
    MergeBreaksMirror(s, acc, from, to);
    MergedRecords(s, acc, from, to);
    OneStaleBond(s', acc, from);
  }

  /** A nominator of whose nominations all but one are mirrored cannot leave. */
  lemma OneStaleBond(s: State, acc: AccountId, stale: AccountId)
    requires Nominates(s.nominators, acc, stale) && !Backs(s.candidates, stale, acc) && stale in s.candidates
    requires forall v :: v != stale && Nominates(s.nominators, acc, v) ==> Backs(s.candidates, v, acc)
    ensures LeaveNominators(s, acc).result == Err(NominatorDNE)
    ensures LeaveNominators(s, acc).state == s <==> stale == Least(s.nominators[acc].nominations.Keys)
  {
    hide LeaveNominators, Departs, List;
    LeaveNominatorsExactly(s, acc);
    FailedLeaveExactly(s, acc);
    var least := Least(s.nominators[acc].nominations.Keys);
    assert Nominates(s.nominators, acc, least);
  }

  lemma MergedRecords(s: State, acc: AccountId, from: AccountId, to: AccountId)
    requires Solvent(s) && Merges(s, acc, to)
    requires SwitchNomination(s, acc, from, to).result.Ok?
    ensures var s' := SwitchNomination(s, acc, from, to).state;
      && acc in s.nominators && acc in s'.nominators && from in s.candidates
      && s'.nominators[acc].nominations.Keys == s.nominators[acc].nominations.Keys
      && s'.candidates.Keys == s.candidates.Keys
  {
    hide LocalSums, Floors, Covered, Mirror;
    assert from in s.nominators[acc].nominations.Keys;
    SwitchMovesSwappedAmount(s, acc, from, to);
    hide Sum, Totals;
    assert s.nominators[acc].nominations.Keys + {to} == s.nominators[acc].nominations.Keys;
  }
}
