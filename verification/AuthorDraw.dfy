/** The pseudorandom draw of the validators that may author at one height (`author-filter`). */
module AuthorDraw {
  import opened Primitives
  import opened PerThing
  import opened Ascending

  /** The beacon: from the two bytes of its subject that vary to the low 64 bits of its output. */
  type Randomness = (nat, nat) -> nat

  /** The index and the relay height enter the subject as single bytes; the output is cut to 32 bits. */
  function RandomIndex(random: Randomness, i: nat, relay: nat): nat {
    random(i % 256, relay % 256) % 0x1_0000_0000
  }

  /** The validators drawn so far and those still in the vector. */
  datatype Draw = Draw(eligible: seq<AccountId>, staked: seq<AccountId>)

  /** The index of the `i`-th removal from what is left. */
  function NextIndex(staked: seq<AccountId>, i: nat, random: Randomness, relay: nat): (j: nat)
    requires staked != []
    ensures j < |staked|
  {
    RandomIndex(random, i, relay) % |staked|
  }

  /** The draw after `k` removals. */
  function DrawFirst(validators: seq<AccountId>, k: nat, random: Randomness, relay: nat): (d: Draw)
    requires k <= |validators|
    ensures |d.eligible| == k && |d.staked| == |validators| - k
  {
    if k == 0 then Draw([], validators)
    else
      var d := DrawFirst(validators, k - 1, random, relay);
      var j := NextIndex(d.staked, k - 1, random, relay);
      Draw(d.eligible + [d.staked[j]], d.staked[..j] + d.staked[j + 1..])
  }

  function Eligible(validators: seq<AccountId>, ratio: Percent, random: Randomness, relay: nat): seq<AccountId> {
    DrawFirst(validators, MulCeil(ratio, |validators|), random, relay).eligible
  }

  predicate MayAuthor(validators: seq<AccountId>, ratio: Percent, random: Randomness, relay: nat, a: AccountId) {
    a in Eligible(validators, ratio, random, relay)
  }

  lemma DrawNone(validators: seq<AccountId>, random: Randomness, relay: nat)
    ensures DrawFirst(validators, 0, random, relay) == Draw([], validators)
  {
  }

  lemma DrawNext(validators: seq<AccountId>, k: nat, random: Randomness, relay: nat)
    requires k < |validators|
    ensures var d := DrawFirst(validators, k, random, relay);
      var j := NextIndex(d.staked, k, random, relay);
      DrawFirst(validators, k + 1, random, relay) == Draw(d.eligible + [d.staked[j]], d.staked[..j] + d.staked[j + 1..])
  {
    hide NextIndex;
  }

  /** Drawn and remaining validators together are always a permutation of the validator set. */
  lemma {:induction false} DrawPartitions(validators: seq<AccountId>, k: nat, random: Randomness, relay: nat)
    requires k <= |validators|
    ensures var d := DrawFirst(validators, k, random, relay);
      multiset(d.eligible) + multiset(d.staked) == multiset(validators)
  {
    hide NextIndex;
    if k > 0 {
      DrawPartitions(validators, k - 1, random, relay);
      var d := DrawFirst(validators, k - 1, random, relay);
      var j := NextIndex(d.staked, k - 1, random, relay);
      MoveOne(d.eligible, d.staked, j);
    }
  }

  lemma MoveOne(e: seq<AccountId>, xs: seq<AccountId>, j: nat)
    requires j < |xs|
    ensures multiset(e + [xs[j]]) + multiset(xs[..j] + xs[j + 1..]) == multiset(e) + multiset(xs)
  {
    assert xs == xs[..j] + [xs[j]] + xs[j + 1..];
  }

  /** For every beacon and every ratio the draw yields exactly ceil(ratio * n) validators, all
      different, all from the set; so everyone may author at 100%, and nobody at all may exactly
      when the ratio or the set is empty. */
  lemma DrawIsExact(validators: seq<AccountId>, ratio: Percent, random: Randomness, relay: nat)
    requires Increasing(validators)
    ensures var e := Eligible(validators, ratio, random, relay);
      && |e| == MulCeil(ratio, |validators|)
      && (forall a :: MayAuthor(validators, ratio, random, relay, a) <==> a in e)
      && (forall i, j :: 0 <= i < j < |e| ==> e[i] != e[j])
      && (forall a :: a in e ==> a in validators)
      && (ratio == 100 ==> forall a :: a in validators ==> a in e)
      && ((forall a :: !MayAuthor(validators, ratio, random, relay, a)) <==> ratio == 0 || validators == [])
  {
    hide MulCeil;
    var d := DrawFirst(validators, MulCeil(ratio, |validators|), random, relay);
    DrawPartitions(validators, MulCeil(ratio, |validators|), random, relay);
    forall x ensures multiset(validators)[x] <= 1 {
      OnceIn(validators, x);
    }
    EligibleEmpty(validators, ratio, random, relay);
    hide DrawFirst, MulCeil;
    SmallerMultiset(d.eligible, d.staked, validators);
    if ratio == 100 {
      assert d.staked == [];
      forall a | a in validators ensures a in d.eligible {
        assert a in multiset(validators);
      }
    }
  }

  lemma SmallerMultiset(e: seq<AccountId>, rest: seq<AccountId>, all: seq<AccountId>)
    requires multiset(e) + multiset(rest) == multiset(all)
    requires forall x :: multiset(all)[x] <= 1
    ensures forall i, j :: 0 <= i < j < |e| ==> e[i] != e[j]
    ensures forall a :: a in e ==> a in all
  {
    forall i, j | 0 <= i < j < |e| ensures e[i] != e[j] {
      if e[i] == e[j] {
        TwiceIn(e, i, j);
      }
      assert multiset(e)[e[i]] <= multiset(all)[e[i]];
    }
    forall a | a in e ensures a in all {
      assert a in multiset(e);
      assert a in multiset(all);
    }
  }

  lemma EligibleEmpty(validators: seq<AccountId>, ratio: Percent, random: Randomness, relay: nat)
    ensures (forall a :: !MayAuthor(validators, ratio, random, relay, a)) <==> ratio == 0 || validators == []
  {
    hide MulCeil, DrawFirst;
    var e := Eligible(validators, ratio, random, relay);
    if e != [] {
      assert MayAuthor(validators, ratio, random, relay, e[0]);
    }
  }

  // Which validators are drawn.

  /** The validators that are not among `drawn`, in the order of the set. */
  ghost function Without(validators: seq<AccountId>, drawn: seq<AccountId>): seq<AccountId> {
    if validators == [] then []
    else if validators[0] in drawn then Without(validators[1..], drawn)
    else [validators[0]] + Without(validators[1..], drawn)
  }

  lemma {:induction false} WithoutMembers(validators: seq<AccountId>, drawn: seq<AccountId>, x: AccountId)
    ensures x in Without(validators, drawn) <==> x in validators && x !in drawn
    decreases |validators|
  {
    if validators != [] {
      WithoutMembers(validators[1..], drawn, x);
      assert validators == [validators[0]] + validators[1..];
    }
  }

  lemma {:induction false} WithoutStranger(validators: seq<AccountId>, drawn: seq<AccountId>, x: AccountId)
    requires x !in validators
    ensures Without(validators, drawn + [x]) == Without(validators, drawn)
    decreases |validators|
  {
    if validators != [] {
      assert x !in validators[1..] && x != validators[0];
      WithoutStranger(validators[1..], drawn, x);
    }
  }

  lemma {:induction false} WithoutNobody(validators: seq<AccountId>)
    ensures Without(validators, []) == validators
    decreases |validators|
  {
    if validators != [] {
      WithoutNobody(validators[1..]);
    }
  }

  /** Drawing one more takes exactly that one out of what was left. */
  lemma {:induction false} WithoutOneMore(validators: seq<AccountId>, drawn: seq<AccountId>, j: nat)
    requires Distinct(validators) && j < |Without(validators, drawn)|
    ensures var left := Without(validators, drawn);
      Without(validators, drawn + [left[j]]) == left[..j] + left[j + 1..]
    decreases |validators|
  {
    hide Distinct;
    if validators != [] {
      var first, others := validators[0], validators[1..];
      DistinctTail(validators);
      if first in drawn {
        WithoutOneMore(others, drawn, j);
      } else if j == 0 {
        FirstOneMore(validators, drawn);
      } else {
        LaterOneMore(validators, drawn, j) by { WithoutOneMore(others, drawn, j - 1); }
      }
    }
  }

  lemma DistinctTail(xs: seq<AccountId>)
    requires Distinct(xs) && xs != []
    ensures Distinct(xs[1..]) && xs[0] !in xs[1..]
  {
  }

  lemma FirstOneMore(validators: seq<AccountId>, drawn: seq<AccountId>)
    requires validators != [] && validators[0] !in drawn && validators[0] !in validators[1..]
    ensures var left := Without(validators, drawn);
      left != [] && Without(validators, drawn + [left[0]]) == left[..0] + left[1..]
  {
    WithoutStranger(validators[1..], drawn, validators[0]);
    assert Without(validators, drawn)[1..] == Without(validators[1..], drawn);
  }

  lemma LaterOneMore(validators: seq<AccountId>, drawn: seq<AccountId>, j: nat)
    requires validators != [] && validators[0] !in drawn && validators[0] !in validators[1..]
    requires 0 < j <= |Without(validators[1..], drawn)|
    requires var left := Without(validators[1..], drawn);
      Without(validators[1..], drawn + [left[j - 1]]) == left[..j - 1] + left[j..]
    ensures var left := Without(validators, drawn);
      Without(validators, drawn + [left[j]]) == left[..j] + left[j + 1..]
  {
    var first, rest := validators[0], Without(validators[1..], drawn);
    WithoutMembers(validators[1..], drawn, rest[j - 1]);
    BehindFirst(first, rest, j);
    assert first !in drawn + [rest[j - 1]];
  }

  lemma BehindFirst(first: AccountId, rest: seq<AccountId>, j: nat)
    requires 0 < j <= |rest|
    ensures ([first] + rest)[j] == rest[j - 1]
    ensures ([first] + rest)[..j] + ([first] + rest)[j + 1..] == [first] + (rest[..j - 1] + rest[j..])
  {
  }

  lemma {:induction false} DrawLeaves(validators: seq<AccountId>, k: nat, random: Randomness, relay: nat)
    requires Distinct(validators) && k <= |validators|
    ensures var d := DrawFirst(validators, k, random, relay); d.staked == Without(validators, d.eligible)
  {
    hide NextIndex;
    if k == 0 {
      WithoutNobody(validators);
    } else {
      DrawLeaves(validators, k - 1, random, relay);
      var d := DrawFirst(validators, k - 1, random, relay);
      WithoutOneMore(validators, d.eligible, NextIndex(d.staked, k - 1, random, relay));
    }
  }

  lemma {:induction false} DrawGrows(validators: seq<AccountId>, i: nat, k: nat, random: Randomness, relay: nat)
    requires i <= k <= |validators|
    ensures DrawFirst(validators, k, random, relay).eligible[..i] == DrawFirst(validators, i, random, relay).eligible
    decreases k
  {
    hide NextIndex;
    if i < k {
      DrawGrows(validators, i, k - 1, random, relay);
    }
  }

  /** The draw, element by element: the i-th account drawn is found among the validators not drawn
      before it, in the order of the set, at the beacon's value for i and the relay height, both cut
      to a byte, cut to 32 bits and taken modulo how many are left. */
  lemma DrawElement(validators: seq<AccountId>, ratio: Percent, random: Randomness, relay: nat, i: nat)
    requires Increasing(validators) && i < |Eligible(validators, ratio, random, relay)|
    ensures var e := Eligible(validators, ratio, random, relay);
      var left := Without(validators, e[..i]);
      left != [] && e[i] == left[random(i % 256, relay % 256) % 0x1_0000_0000 % |left|]
  {
    hide MulCeil, NextIndex;
    var k := MulCeil(ratio, |validators|);
    DrawGrows(validators, i, k, random, relay);
    DrawGrows(validators, i + 1, k, random, relay);
    DrawLeaves(validators, i, random, relay);
    DrawNext(validators, i, random, relay);
    var d, e := DrawFirst(validators, i, random, relay), Eligible(validators, ratio, random, relay);
    assert e[i] == e[..i + 1][i] == d.staked[NextIndex(d.staked, i, random, relay)];
    hide DrawFirst, Without;
    NextIndexIs(d.staked, i, random, relay);
  }

  lemma NextIndexIs(staked: seq<AccountId>, i: nat, random: Randomness, relay: nat)
    requires staked != []
    ensures NextIndex(staked, i, random, relay) == random(i % 256, relay % 256) % 0x1_0000_0000 % |staked|
  {
  }

  /** The draw is not biased against anybody: with a ratio that is not zero, each validator is
      eligible under some beacon. The set has no more members than a 32-bit index can address, since
      the maximum number of validators is a 32-bit number. */
  lemma AnybodyCanBeDrawn(validators: seq<AccountId>, ratio: Percent, relay: nat, at: nat) returns (random: Randomness)
    requires Increasing(validators) && ratio != 0 && at < |validators| <= 0x1_0000_0000
    ensures validators[at] in Eligible(validators, ratio, random, relay)
  {
    random := (i, height) => at;
    DrawElement(validators, ratio, random, relay, 0);
    WithoutNobody(validators);
    hide MulCeil, DrawFirst, Without;
    IndexIsItself(at, |validators|);
    var e := Eligible(validators, ratio, random, relay);
    assert e[..0] == [];
    assert random(0, relay % 256) == at;
  }

  lemma IndexIsItself(at: nat, n: nat)
    requires at < n <= 0x1_0000_0000
    ensures at % 0x1_0000_0000 % n == at && 0 % 256 == 0
  {
  }
}
