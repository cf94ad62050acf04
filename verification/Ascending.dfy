/** The ascending list of a finite set of accounts: the order in which every sorted vector of the
    pallet is walked. */
module Ascending {
  import opened Primitives

  ghost predicate Increasing(xs: seq<AccountId>) {
    forall i, j :: 0 <= i < j < |xs| ==> xs[i] < xs[j]
  }

  ghost function Elements(xs: seq<AccountId>): set<AccountId> {
    set x | x in xs
  }

  ghost predicate Distinct<T>(xs: seq<T>) {
    forall i, j :: 0 <= i < j < |xs| ==> xs[i] != xs[j]
  }

  lemma TwiceIn<T>(xs: seq<T>, i: nat, j: nat)
    requires i < j < |xs| && xs[i] == xs[j]
    ensures multiset(xs)[xs[i]] >= 2
  {
    assert xs == xs[..j] + [xs[j]] + xs[j + 1..];
    assert xs[..j][i] in multiset(xs[..j]);
  }

  lemma {:induction false} OnceIn<T>(xs: seq<T>, x: T)
    requires Distinct(xs)
    ensures multiset(xs)[x] <= 1
    decreases |xs|
  {
    if xs != [] {
      OnceIn(xs[1..], x);
      assert xs == [xs[0]] + xs[1..];
      assert xs[0] !in xs[1..];
    }
  }

  ghost predicate Lists(xs: seq<AccountId>, s: set<AccountId>) {
    Increasing(xs) && forall x :: x in xs <==> x in s
  }

  lemma {:induction false} LeastOf(s: set<AccountId>) returns (m: AccountId)
    requires s != {}
    ensures m in s && forall y :: y in s ==> m <= y
  {
    m :| m in s;
    var rest := s - {m};
    if rest != {} {
      var r := LeastOf(rest);
      if r < m { m := r; }
    }
    assert forall y :: y in s ==> y in rest || y == m || m < y;
  }

  lemma HasLeast(s: set<AccountId>)
    requires s != {}
    ensures exists m :: m in s && forall y :: y in s ==> m <= y
  {
    var m := LeastOf(s);
  }

  ghost function Least(s: set<AccountId>): (x: AccountId)
    requires s != {}
    ensures x in s && forall y :: y in s ==> x <= y
  {
    HasLeast(s);
    var x :| x in s && forall y :: y in s ==> x <= y;
    x
  }

  ghost function List(s: set<AccountId>): (xs: seq<AccountId>)
    ensures Lists(xs, s) && |xs| == |s|
  {
    if s == {} then [] else
      var x := Least(s);
      var rest := List(s - {x});
      assert forall i :: 0 <= i < |rest| ==> rest[i] in s - {x};
      [x] + rest
  }

  /** A set has one ascending list. */
  lemma {:induction false} ListUnique(xs: seq<AccountId>, s: set<AccountId>)
    requires Lists(xs, s)
    ensures xs == List(s)
    decreases |xs|
  {
    if xs == [] {
      assert s == {};
    } else {
      assert s != {} && xs[0] == Least(s) by { FirstIsLeast(xs, s); }
      assert xs[1..] == List(s - {xs[0]}) by {
        TailLists(xs, s);
        ListUnique(xs[1..], s - {xs[0]});
      }
      ListUnfold(s);
    }
  }

  lemma ListUnfold(s: set<AccountId>)
    requires s != {}
    ensures List(s) == [Least(s)] + List(s - {Least(s)})
  {
  }

  lemma FirstIsLeast(xs: seq<AccountId>, s: set<AccountId>)
    requires Lists(xs, s) && xs != []
    ensures s != {} && xs[0] == Least(s)
  {
    assert xs[0] in s;
    var i :| 0 <= i < |xs| && xs[i] == Least(s);
  }

  lemma TailLists(xs: seq<AccountId>, s: set<AccountId>)
    requires Lists(xs, s) && xs != []
    ensures Lists(xs[1..], s - {xs[0]})
  {
    forall y ensures y in xs[1..] <==> y in s - {xs[0]} {
      if y in s - {xs[0]} {
        var i :| 0 <= i < |xs| && xs[i] == y;
        assert xs[1..][i - 1] == y;
      }
      if y in xs[1..] {
        var i :| 0 <= i < |xs[1..]| && xs[1..][i] == y;
        assert xs[i + 1] == y && y in xs;
      }
    }
  }
}
