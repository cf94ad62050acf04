/** The two loops that take bonds apart: a nominator leaving all its validators, and a candidate
    returning the stake of all its nominators when its exit is due. Each is shown to be the same as
    detaching the bonds one by one on both records. */
module Departures {
  import opened Primitives
  import opened Sums
  import opened Ascending
  import opened Currency
  import opened StakeSpec
  import opened Books
  import opened Solvency

  /** `xs` lists the keys of `m`. */
  ghost predicate Keyed(xs: seq<AccountId>, m: map<AccountId, int>) {
    Distinct(xs) && forall k :: k in xs <==> k in m
  }

  lemma KeyedTail(xs: seq<AccountId>, m: map<AccountId, int>)
    requires Keyed(xs, m) && xs != []
    ensures xs[0] in m && Keyed(xs[1..], m - {xs[0]})
  {
    assert xs[0] in xs;
    forall k ensures k in xs[1..] <==> k in m - {xs[0]} {
      if k in m - {xs[0]} {
        var i :| 0 <= i < |xs| && xs[i] == k;
        assert xs[1..][i - 1] == k;
      }
      if k in xs[1..] {
        var i :| 0 <= i < |xs[1..]| && xs[1..][i] == k;
        assert xs[i + 1] == k && k in xs;
      }
    }
  }

  lemma ListKeyed(m: map<AccountId, int>)
    ensures Keyed(List(m.Keys), m)
  {
    var xs := List(m.Keys);
  }

  // Leaving every validator.

  /** One departure takes the bond out of the candidate as `Detach` does, and out of the amount locked. */
  lemma LeaveStep(s: State, d: State, n: AccountId, v: AccountId)
    requires Solvent(d) && s.candidates == d.candidates && s.ledger == d.ledger
    requires Nominates(d.nominators, n, v)
    ensures v in d.candidates && Solvent(Detach(d, v, n))
    ensures Nomination(Detach(d, v, n).nominators, n) == RmNomination(d.nominators[n], v)
    ensures Detach(d, v, n).nominators - {n} == d.nominators - {n}
    ensures var left, x := NominatorLeavesValidator(s, n, v), d.nominators[n].nominations[v];
      && left.result.Ok?
      && left.state.candidates == Detach(d, v, n).candidates && left.state.ledger == Detach(d, v, n).ledger
      && left.state.nominators == s.nominators && left.state.total == s.total - x
      && Moved(s.ledger, left.state.ledger, n, 0 - x)
      && left.state.candidates.Keys == s.candidates.Keys
      && Sum(Totals(left.state.candidates)) == Sum(Totals(s.candidates)) - x
  {
    hide Sound, Covered, Moved, SetNomination, Sum, Totals;
    var left, x := NominatorLeavesValidator(s, n, v), d.nominators[n].nominations[v];
    DetachSolvent(d, v, n);
    RestOfNominator(d, v, n);
    assert left.state.candidates[v] == Backed(d.candidates[v], n, 0);
    TotalsUpdate(s.candidates, v, left.state.candidates[v]);
  }

  /** The loop keeps the nominator's stored record while it takes its bonds out of the candidates;
      `d` is the solvent state in which the bonds already left are gone from both. */
  lemma {:induction false} LeaveEachDetaches(s: State, d: State, n: AccountId, vs: seq<AccountId>) returns (d': State)
    requires Solvent(d) && s.candidates == d.candidates && s.ledger == d.ledger
    requires Keyed(vs, Nomination(d.nominators, n).nominations)
    ensures Solvent(d') && d'.nominators == d.nominators - {n}
    ensures var left, x := LeaveEach(s, n, vs), Nomination(d.nominators, n).total;
      && left.result.Ok?
      && left.state.candidates == d'.candidates && left.state.ledger == d'.ledger
      && left.state.nominators == s.nominators && left.state.total == s.total - x
      && Moved(s.ledger, left.state.ledger, n, 0 - x)
      && left.state.candidates.Keys == s.candidates.Keys
      && Sum(Totals(left.state.candidates)) == Sum(Totals(s.candidates)) - x
    decreases |vs|
  {
    hide Solvent, Moved, Sum, Totals, NominatorLeavesValidator, Detach;
    var x := Nomination(d.nominators, n);
    if vs == [] {
      NoNominations(d, n, vs);
      Still(s.ledger, n);
      d' := d;
    } else {
      var v := vs[0];
      KeyedTail(vs, x.nominations);
      LeaveStep(s, d, n, v);
      hide Keyed;
      var left := NominatorLeavesValidator(s, n, v);
      d' := LeaveEachDetaches(left.state, Detach(d, v, n), n, vs[1..]);
      MovedTwice(s.ledger, left.state.ledger, LeaveEach(s, n, vs).state.ledger, n,
                 0 - x.nominations[v], 0 - Nomination(Detach(d, v, n).nominators, n).total);
    }
  }

  lemma NoNominations(d: State, n: AccountId, vs: seq<AccountId>)
    requires Solvent(d) && vs == [] && Keyed(vs, Nomination(d.nominators, n).nominations)
    ensures d.nominators - {n} == d.nominators && Nomination(d.nominators, n).total == 0
  {
    hide Mirror, LocalSums, Covered;
    assert Nomination(d.nominators, n).nominations == map[];
    assert n !in d.nominators;
  }

  lemma Still(l: Ledger, a: AccountId)
    ensures Moved(l, l, a, 0)
  {
  }

  lemma MovedTwice(l0: Ledger, l1: Ledger, l2: Ledger, a: AccountId, x: int, y: int)
    requires Moved(l0, l1, a, x) && Moved(l1, l2, a, y)
    ensures Moved(l0, l2, a, x + y)
  {
    hide Held, Reserved, Free, Sum;
  }

  /** From `s` to `s'` the nominator `acc` has left with all its bonds, and `x` has been released. */
  ghost predicate Left(s: State, s': State, acc: AccountId, x: int) {
    && s'.nominators == s.nominators - {acc}
    && s'.candidates.Keys == s.candidates.Keys
    && Moved(s.ledger, s'.ledger, acc, 0 - x)
    && s'.total == s.total - x
    && Sum(Totals(s'.candidates)) == Sum(Totals(s.candidates)) - x
  }

  lemma LoopLeaves(s: State, acc: AccountId, vs: seq<AccountId>) returns (d': State)
    requires Solvent(s) && acc in s.nominators && Keyed(vs, s.nominators[acc].nominations)
    ensures LeaveEach(s, acc, vs).result.Ok? && Solvent(d') && acc !in d'.nominators
    ensures var left := LeaveEach(s, acc, vs).state;
      var s' := left.(nominators := left.nominators - {acc});
      Left(s, s', acc, s.nominators[acc].total)
      && s'.candidates == d'.candidates && s'.nominators == d'.nominators && s'.ledger == d'.ledger
  {
    hide Solvent, Moved, Keyed, LeaveEach, Sum, Totals;
    assert Nomination(s.nominators, acc) == s.nominators[acc];
    d' := LeaveEachDetaches(s, s, acc, vs);
  }

  lemma LeaveNominatorsEffect(s: State, acc: AccountId)
    requires Solvent(s) && acc in s.nominators
    ensures LeaveNominators(s, acc).result.Ok?
    ensures var s' := LeaveNominators(s, acc).state;
      Solvent(s') && Left(s, s', acc, s.nominators[acc].total) && forall v :: !Backs(s'.candidates, v, acc)
  {
    hide Solvent, Left, Keyed, LeaveEach, LeaveNominators, Backs, List;
    var vs := List(s.nominators[acc].nominations.Keys);
    ListKeyed(s.nominators[acc].nominations);
    var d' := LoopLeaves(s, acc, vs);
    LeavingIsTheLoop(s, acc, vs);
    SolventParts(d', LeaveNominators(s, acc).state);
    NoBacker(d', acc);
  }

  lemma LeavingIsTheLoop(s: State, acc: AccountId, vs: seq<AccountId>)
    requires acc in s.nominators && vs == List(s.nominators[acc].nominations.Keys)
    requires LeaveEach(s, acc, vs).result.Ok?
    ensures var left := LeaveEach(s, acc, vs).state; LeaveNominators(s, acc) == Done(left.(nominators := left.nominators - {acc}))
  {
    hide LeaveEach, List;
  }

  /** On solvent states leaving is all or nothing: it fails only for an account that is no
      nominator, changing nothing, and otherwise releases exactly the nominator's total and both
      records of all its bonds. */
  lemma LeaveNominatorsAllOrNothing(s: State, acc: AccountId)
    requires Solvent(s)
    ensures LeaveNominators(s, acc).result.Ok? <==> acc in s.nominators
    ensures acc !in s.nominators ==> LeaveNominators(s, acc) == Fail(s, NominatorDNE)
    ensures acc in s.nominators ==> var s', x := LeaveNominators(s, acc).state, s.nominators[acc].total;
      && Solvent(s')
      && s'.nominators == s.nominators - {acc}
      && s'.candidates.Keys == s.candidates.Keys
      && (forall v :: !Backs(s'.candidates, v, acc))
      && Moved(s.ledger, s'.ledger, acc, 0 - x)
      && s'.total == s.total - x
      && Sum(Totals(s'.candidates)) == Sum(Totals(s.candidates)) - x
  {
    if acc in s.nominators {
      hide LeaveNominators, Solvent, Moved, Sum, Totals, Backs;
      LeaveNominatorsEffect(s, acc);
    } else {
      assert LeaveNominators(s, acc) == Fail(s, NominatorDNE);
    }
  }

  lemma SolventParts(d: State, s: State)
    requires Solvent(d) && s.candidates == d.candidates && s.nominators == d.nominators && s.ledger == d.ledger
    ensures Solvent(s)
  {
    hide Sound, Covered;
  }

  lemma NoBacker(d: State, n: AccountId)
    requires Solvent(d) && n !in d.nominators
    ensures forall v :: !Backs(d.candidates, v, n)
  {
    hide LocalSums, Floors, Covered;
    forall v ensures !Backs(d.candidates, v, n) {
      assert !Nominates(d.nominators, n, v);
    }
  }

  // Returning the stake of every nominator.

  lemma {:induction false} ReleaseEachDetaches(s: State, d: State, x: AccountId, bonds: map<AccountId, int>, ns: seq<AccountId>)
    returns (d': State)
    requires Solvent(d) && s.nominators == d.nominators && s.ledger == d.ledger
    requires x in d.candidates && (forall n :: n in ns ==> n in bonds)
    requires Keyed(ns, d.candidates[x].nominators)
    requires forall n :: n in d.candidates[x].nominators ==> d.candidates[x].nominators[n] == bonds[n]
    ensures Solvent(d') && x in d'.candidates && d'.candidates[x].nominators == map[]
    ensures d'.candidates[x].bond == d.candidates[x].bond
    ensures d'.candidates - {x} == d.candidates - {x}
    ensures var r := ReleaseEach(s, x, bonds, ns);
      && r == s.(nominators := d'.nominators, ledger := d'.ledger)
    decreases |ns|
  {
    hide Solvent, ReleaseOne, Detach;
    var m := d.candidates[x].nominators;
    if ns == [] {
      assert m == map[];
      d' := d;
    } else {
      var n := ns[0];
      KeyedTail(ns, m);
      ReleaseStep(s, d, x, n);
      hide Keyed;
      d' := ReleaseEachDetaches(ReleaseOne(s, x, n, bonds[n]), Detach(d, x, n), x, bonds, ns[1..]);
    }
  }

  /** One release is one detachment, seen from the nominators and the ledger. */
  lemma ReleaseStep(s: State, d: State, x: AccountId, n: AccountId)
    requires Solvent(d) && s.nominators == d.nominators && s.ledger == d.ledger
    requires Backs(d.candidates, x, n)
    ensures Solvent(Detach(d, x, n))
    ensures var d1, amount := Detach(d, x, n), d.candidates[x].nominators[n];
      && d1.candidates == d.candidates[x := d1.candidates[x]]
      && d1.candidates[x].nominators == d.candidates[x].nominators - {n}
      && d1.candidates[x].bond == d.candidates[x].bond
      && d1.candidates - {x} == d.candidates - {x}
      && ReleaseOne(s, x, n, amount) == s.(nominators := d1.nominators, ledger := d1.ledger)
  {
    hide LocalSums, Floors, Roles, Covered, Moved, SetNomination;
    assert Nominates(d.nominators, n, x);
    hide Mirror;
    DetachSolvent(d, x, n);
    RestOfNominator(d, x, n);
  }

  lemma ReturnBond(d: State, e: State, x: AccountId)
    requires Solvent(d) && x in d.candidates && d.candidates[x].nominators == map[]
    requires e.candidates == d.candidates - {x} && e.nominators == d.nominators
    requires e.ledger == Unreserve(d.ledger, x, d.candidates[x].bond)
    ensures Solvent(e)
  {
    hide Solvent, Moved, Unreserve;
    LastBond(d, x);
    UnreserveMoves(d.ledger, x, d.candidates[x].bond);
    RemoveSolvent(d, e, x);
  }

  lemma ExitOneSolvent(s: State, x: AccountId)
    requires Solvent(s)
    ensures Solvent(ExitOne(s, x))
  {
    if x in s.candidates {
      hide Solvent, Moved, ReleaseEach, Keyed, ExitOne, Unreserve, List;
      var c := s.candidates[x];
      LastBond(s, x);
      ListKeyed(c.nominators);
      var d := ReleaseEachDetaches(s, s, x, c.nominators, List(c.nominators.Keys));
      ExitOneParts(s, x);
      ReturnBond(d, ExitOne(s, x), x);
    } else {
      assert ExitOne(s, x) == s;
    }
  }

  lemma ExitOneParts(s: State, x: AccountId)
    requires x in s.candidates
    ensures var c, e := s.candidates[x], ExitOne(s, x);
      var r := ReleaseEach(s, x, c.nominators, List(c.nominators.Keys));
      e.candidates == r.candidates - {x} && e.nominators == r.nominators && e.ledger == Unreserve(r.ledger, c.id, c.bond)
  {
    hide ReleaseEach, List, Unreserve;
  }

  lemma LastBond(d: State, x: AccountId)
    requires Solvent(d) && x in d.candidates
    ensures d.candidates[x].id == x && 0 <= d.candidates[x].bond <= Reserved(d.ledger, x)
  {
    hide Mirror, LocalSums, NominationsAboveFloor, NominationsInRange;
    assert d.candidates[x].bond == Owed(d.candidates, d.nominators, x) == Held(d.ledger, x);
  }

  lemma RemoveSolvent(d: State, e: State, x: AccountId)
    requires Solvent(d) && x in d.candidates && d.candidates[x].nominators == map[]
    requires e.candidates == d.candidates - {x} && e.nominators == d.nominators
    requires Moved(d.ledger, e.ledger, x, 0 - d.candidates[x].bond)
    ensures Solvent(e)
  {
    hide Mirror, Floors, Covered, Moved;
    assert d.candidates[x].total == d.candidates[x].bond by { assert Sum(d.candidates[x].nominators) == 0; }
    hide LocalSums, Sum, Totals;
    RemoveSound(d.candidates, d.nominators, x);
    TotalsRemove(d.candidates, x);
    MoveCovered(d.ledger, e.ledger, d.candidates, d.nominators, e.candidates, e.nominators, x, 0 - d.candidates[x].bond);
  }

  lemma {:induction false} ExitEachSolvent(s: State, xs: seq<AccountId>)
    requires Solvent(s)
    ensures Solvent(ExitEach(s, xs))
    decreases |xs|
  {
    hide Solvent, ExitOne;
    if xs != [] {
      ExitOneSolvent(s, xs[0]);
      ExitEachSolvent(ExitOne(s, xs[0]), xs[1..]);
    }
  }

  lemma ExecuteDelayedExitsSolvent(s: State, next: nat)
    requires Solvent(s)
    ensures Solvent(ExecuteDelayedExits(s, next))
  {
    hide Sound, Covered, ExitEach;
    ExitEachSolvent(s, List(DueExits(s, next)));
  }

  // What exits touch, on every state.

  lemma ReleaseOneFrame(s: State, x: AccountId, n: AccountId, amount: int)
    ensures var r := ReleaseOne(s, x, n, amount); r == s.(nominators := r.nominators, ledger := r.ledger)
  {
    hide Unreserve, RmNomination;
    if n !in s.nominators || x !in s.nominators[n].nominations {
    } else {
    }
  }

  lemma {:induction false} ReleaseEachFrame(s: State, x: AccountId, bonds: map<AccountId, int>, ns: seq<AccountId>)
    requires forall n :: n in ns ==> n in bonds
    ensures var r := ReleaseEach(s, x, bonds, ns); r == s.(nominators := r.nominators, ledger := r.ledger)
    decreases |ns|
  {
    hide ReleaseOne;
    if ns != [] {
      ReleaseOneFrame(s, x, ns[0], bonds[ns[0]]);
      ReleaseEachFrame(ReleaseOne(s, x, ns[0], bonds[ns[0]]), x, bonds, ns[1..]);
    }
  }

  lemma ExitOneFrame(s: State, x: AccountId)
    ensures var r := ExitOne(s, x);
      && r == s.(nominators := r.nominators, ledger := r.ledger, total := r.total, candidates := s.candidates - {x})
      && s.total - r.total == Sum(Totals(s.candidates)) - Sum(Totals(r.candidates))
  {
    hide ReleaseEach, Sum, Totals;
    if x in s.candidates {
      ReleaseEachFrame(s, x, s.candidates[x].nominators, List(s.candidates[x].nominators.Keys));
      TotalsRemove(s.candidates, x);
    } else {
      assert s.candidates - {x} == s.candidates;
    }
  }

  lemma RemoveFirst(c: Candidates, xs: seq<AccountId>)
    requires xs != []
    ensures c - {xs[0]} - Elements(xs[1..]) == c - Elements(xs)
  {
    assert xs == [xs[0]] + xs[1..];
    assert Elements(xs) == {xs[0]} + Elements(xs[1..]);
  }

  lemma {:induction false} ExitEachFrame(s: State, xs: seq<AccountId>)
    ensures var r := ExitEach(s, xs);
      && r == s.(nominators := r.nominators, ledger := r.ledger, total := r.total, candidates := r.candidates)
      && r.candidates == s.candidates - Elements(xs)
      && s.total - r.total == Sum(Totals(s.candidates)) - Sum(Totals(r.candidates))
    decreases |xs|
  {
    hide ExitOne, Sum, Totals;
    if xs == [] {
      assert s.candidates - Elements(xs) == s.candidates;
    } else {
      ExitOneFrame(s, xs[0]);
      ExitEachFrame(ExitOne(s, xs[0]), xs[1..]);
      RemoveFirst(s.candidates, xs);
      hide Elements;
    }
  }

  /** Exits take away the due candidates and their queue entries, and from the amount locked exactly
      what they take from the sum of the candidates' totals; pool, rounds and snapshots stay. */
  lemma ExitsFrame(s: State, next: nat)
    ensures var r := ExecuteDelayedExits(s, next);
      && r == s.(nominators := r.nominators, ledger := r.ledger, total := r.total,
                 candidates := s.candidates - DueExits(s, next), exits := s.exits - DueExits(s, next))
      && s.total - r.total == Sum(Totals(s.candidates)) - Sum(Totals(r.candidates))
  {
    hide ExitEach, Sum, Totals;
    var xs := List(DueExits(s, next));
    ExitEachFrame(s, xs);
    assert Elements(xs) == DueExits(s, next);
    hide Elements, DueExits;
  }
}
