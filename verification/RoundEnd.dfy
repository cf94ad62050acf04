/** What the loops at the end of a round need: how a vector splits into exits due and exits that stay,
    how payments add up one at a time, and what the library's sort returns. */
module RoundEnd {
  import opened Primitives
  import opened Sums
  import opened Ascending
  import opened Currency
  import opened OrderedSets
  import opened StakeSpec

  // Exits.

  function Due(q: seq<Bond>, next: nat): seq<Bond> {
    if q == [] then [] else (if q[0].amount <= next then [q[0]] else []) + Due(q[1..], next)
  }

  function Staying(q: seq<Bond>, next: nat): seq<Bond> {
    if q == [] then [] else (if q[0].amount <= next then [] else [q[0]]) + Staying(q[1..], next)
  }

  ghost function AtMost(m: map<AccountId, int>, x: int): map<AccountId, int> {
    map k | k in m && m[k] <= x :: m[k]
  }

  lemma HeadFirst(h: Bond, d: seq<Bond>)
    requires Sorted(d) && forall x :: x in ToMap(d) ==> h.owner < x
    ensures Sorted([h] + d) && ToMap([h] + d) == ToMap(d)[h.owner := h.amount]
  {
    ToMapKeys(d);
    hide ToMap, Sorted;
    InsertedAt(d, 0, h);
    assert d[..0] + [h] + d[0..] == [h] + d;
  }

  lemma AtMostStep(m: map<AccountId, int>, k: AccountId, x: int)
    requires k in m
    ensures m[k] <= x ==> AtMost(m, x) == AtMost(m - {k}, x)[k := m[k]]
    ensures m[k] > x ==> AtMost(m, x) == AtMost(m - {k}, x)
    ensures AtMost(m - {k}, x).Keys <= (m - {k}).Keys
  {
  }

  lemma RestStep(m: map<AccountId, int>, k: AccountId, due: set<AccountId>)
    requires k in m && due <= (m - {k}).Keys
    ensures m - (due + {k}) == (m - {k}) - due
    ensures m - due == (m - {k} - due)[k := m[k]]
  {
  }

  /** The exits due, and those that stay, of a sorted queue. */
  lemma {:induction false} QueueSplits(q: seq<Bond>, next: nat)
    requires Sorted(q)
    ensures Sorted(Due(q, next)) && ToMap(Due(q, next)) == AtMost(ToMap(q), next)
    ensures Sorted(Staying(q, next)) && ToMap(Staying(q, next)) == ToMap(q) - AtMost(ToMap(q), next).Keys
    decreases |q|
  {
    if q == [] {
      assert AtMost(ToMap(q), next) == map[];
    } else {
      SortedHead(q);
      QueueSplits(q[1..], next);
      hide Sorted, ToMap;
      QueueStep(q, next, ToMap(q));
    }
  }

  lemma QueueStep(q: seq<Bond>, next: nat, m: map<AccountId, int>)
    requires q != [] && q[0].owner in m && m[q[0].owner] == q[0].amount
    requires forall x :: x in m ==> q[0].owner <= x
    requires var k, d, s := q[0].owner, Due(q[1..], next), Staying(q[1..], next);
      && Sorted(d) && ToMap(d) == AtMost(m - {k}, next)
      && Sorted(s) && ToMap(s) == m - {k} - AtMost(m - {k}, next).Keys
    ensures Sorted(Due(q, next)) && ToMap(Due(q, next)) == AtMost(m, next)
    ensures Sorted(Staying(q, next)) && ToMap(Staying(q, next)) == m - AtMost(m, next).Keys
  {
    hide Sorted, ToMap, AtMost;
    var h, d, s := q[0], Due(q[1..], next), Staying(q[1..], next);
    assert [] + d == d && [] + s == s;
    AtMostStep(m, h.owner, next);
    RestStep(m, h.owner, ToMap(d).Keys);
    if h.amount <= next {
      HeadFirst(h, d);
      assert AtMost(m, next).Keys == ToMap(d).Keys + {h.owner};
    } else {
      HeadFirst(h, s);
    }
  }

  // Payment.

  /** What `mint` does to the ledger: a deposit, unless the amount is negligible. */
  function MintTo(l: Ledger, a: AccountId, amount: int): Ledger {
    if amount > cfg.existentialDeposit then DepositIntoExisting(l, a, amount) else l
  }

  /** The part of `Credit` that the nominators in `done` and the author account for. */
  ghost function PartCredit(l: Ledger, x: Snapshot, v: AccountId, due: int, done: set<AccountId>, a: AccountId): nat {
    (if a == v then Minted(l, v, ValidatorDue(x, due)) else 0)
    + (if a in done && a in x.nominators then Minted(l, a, NominatorDue(x, due, a)) else 0)
  }

  ghost function PartMinted(l: Ledger, x: Snapshot, due: int, done: set<AccountId>): map<AccountId, int> {
    map n | n in x.nominators && n in done :: Minted(l, n, NominatorDue(x, due, n))
  }

  /** From `l` to `r` the author and the nominators in `done` have been paid for one author's blocks. */
  ghost predicate PartPaid(l: Ledger, r: Ledger, x: Snapshot, v: AccountId, due: int, done: set<AccountId>) {
    && r.held == l.held && r.accounts.Keys == l.accounts.Keys
    && r.issuance == l.issuance + Minted(l, v, ValidatorDue(x, due)) + Sum(PartMinted(l, x, due, done))
    && forall a :: a in l.accounts ==>
         r.accounts[a] == Account(l.accounts[a].free + PartCredit(l, x, v, due, done, a), l.accounts[a].reserved)
  }

  /** From `l` to `r` everyone has been paid for one author's blocks. */
  ghost predicate AuthorPaid(l: Ledger, r: Ledger, x: Snapshot, v: AccountId, due: int) {
    && r.held == l.held && r.accounts.Keys == l.accounts.Keys
    && r.issuance == l.issuance + MintedFor(l, x, v, due)
    && forall a :: a in l.accounts ==>
         r.accounts[a] == Account(l.accounts[a].free + Credit(l, x, v, due, a), l.accounts[a].reserved)
  }

  lemma MintEffect(l: Ledger, a: AccountId, amount: int)
    ensures var r := MintTo(l, a, amount);
      && r.held == l.held && r.accounts.Keys == l.accounts.Keys
      && r.issuance == l.issuance + Minted(l, a, amount)
      && forall b :: b in l.accounts ==>
           r.accounts[b] == Account(l.accounts[b].free + (if b == a then Minted(l, a, amount) else 0), l.accounts[b].reserved)
  {
  }

  lemma AuthorFirst(l: Ledger, x: Snapshot, v: AccountId, due: int)
    ensures PartPaid(l, MintTo(l, v, ValidatorDue(x, due)), x, v, due, {})
  {
    hide MintTo, ValidatorDue, NominatorDue, Minted;
    MintEffect(l, v, ValidatorDue(x, due));
    assert PartMinted(l, x, due, {}) == map[];
  }

  lemma NominatorNext(l: Ledger, r: Ledger, x: Snapshot, v: AccountId, due: int, done: set<AccountId>, n: AccountId)
    requires PartPaid(l, r, x, v, due, done) && n in x.nominators && n !in done
    ensures PartPaid(l, MintTo(r, n, NominatorDue(x, due, n)), x, v, due, done + {n})
  {
    hide MintTo, ValidatorDue, NominatorDue;
    var amount := NominatorDue(x, due, n);
    MintEffect(r, n, amount);
    assert Minted(r, n, amount) == Minted(l, n, amount);
    hide Minted, Sum;
    assert PartMinted(l, x, due, done + {n}) == PartMinted(l, x, due, done)[n := Minted(l, n, amount)];
    SumUpdate(PartMinted(l, x, due, done), n, Minted(l, n, amount));
  }

  lemma EveryonePaid(l: Ledger, r: Ledger, x: Snapshot, v: AccountId, due: int)
    requires PartPaid(l, r, x, v, due, x.nominators.Keys)
    ensures AuthorPaid(l, r, x, v, due)
  {
    hide ValidatorDue, NominatorDue, Minted, Sum;
    assert PartMinted(l, x, due, x.nominators.Keys) == NominatorsMinted(l, x, due);
  }

  /** With nobody paid the ledger is as it was. */
  lemma NobodyPaid(l: Ledger, exposures: Exposures, awards: Awards, total: nat, issuance: int)
    ensures PaidLedger(l, exposures, awards, total, issuance, {}) == l
  {
    assert Mints(l, exposures, awards, total, issuance, {}) == map[];
    forall a ensures Credits(l, exposures, awards, total, issuance, {}, a) == map[] {
    }
  }

  lemma SameMints(l: Ledger, r: Ledger, x: Snapshot, v: AccountId, due: int)
    requires r.accounts.Keys == l.accounts.Keys
    ensures MintedFor(r, x, v, due) == MintedFor(l, x, v, due)
    ensures forall a :: Credit(r, x, v, due, a) == Credit(l, x, v, due, a)
  {
    hide ValidatorDue, NominatorDue, Sum;
    assert NominatorsMinted(r, x, due) == NominatorsMinted(l, x, due);
  }

  lemma ReceivedStep(l: Ledger, exposures: Exposures, awards: Awards, total: nat, issuance: int,
                     paid: set<AccountId>, v: AccountId, a: AccountId)
    requires paid <= awards.Keys && v in awards && v !in paid
    ensures Received(l, exposures, awards, total, issuance, paid + {v}, a)
         == Received(l, exposures, awards, total, issuance, paid, a)
            + Credit(l, Exposure(exposures, v), v, AmountDue(awards[v], total, issuance), a)
  {
    hide Credit, Exposure, AmountDue, Sum;
    var credits := Credits(l, exposures, awards, total, issuance, paid, a);
    var credit := Credit(l, Exposure(exposures, v), v, AmountDue(awards[v], total, issuance), a);
    assert Credits(l, exposures, awards, total, issuance, paid + {v}, a) == credits[v := credit];
    SumUpdate(credits, v, credit);
  }

  lemma MintedStep(l: Ledger, exposures: Exposures, awards: Awards, total: nat, issuance: int,
                   paid: set<AccountId>, v: AccountId)
    requires paid <= awards.Keys && v in awards && v !in paid
    ensures TotalMinted(l, exposures, awards, total, issuance, paid + {v})
         == TotalMinted(l, exposures, awards, total, issuance, paid)
            + MintedFor(l, Exposure(exposures, v), v, AmountDue(awards[v], total, issuance))
  {
    hide MintedFor, Exposure, AmountDue, Sum;
    var mints := Mints(l, exposures, awards, total, issuance, paid);
    var minted := MintedFor(l, Exposure(exposures, v), v, AmountDue(awards[v], total, issuance));
    assert Mints(l, exposures, awards, total, issuance, paid + {v}) == mints[v := minted];
    SumUpdate(mints, v, minted);
  }

  lemma PaidParts(l: Ledger, exposures: Exposures, awards: Awards, total: nat, issuance: int, paid: set<AccountId>)
    requires paid <= awards.Keys
    ensures var p := PaidLedger(l, exposures, awards, total, issuance, paid);
      && p.held == l.held && p.accounts.Keys == l.accounts.Keys
      && p.issuance == l.issuance + TotalMinted(l, exposures, awards, total, issuance, paid)
      && forall a :: a in l.accounts ==>
           p.accounts[a] == Account(l.accounts[a].free + Received(l, exposures, awards, total, issuance, paid, a),
                                    l.accounts[a].reserved)
  {
    hide Received, TotalMinted;
  }

  lemma SameLedger(p: Ledger, q: Ledger)
    requires p.held == q.held && p.issuance == q.issuance && p.accounts.Keys == q.accounts.Keys
    requires forall a :: a in p.accounts ==> p.accounts[a] == q.accounts[a]
    ensures p == q
  {
  }

  /** Paying one more author, in whatever order they come. */
  lemma AuthorNext(l: Ledger, r: Ledger, r': Ledger, exposures: Exposures, awards: Awards, total: nat, issuance: int,
                   paid: set<AccountId>, v: AccountId)
    requires paid <= awards.Keys && v in awards && v !in paid
    requires r == PaidLedger(l, exposures, awards, total, issuance, paid)
    requires AuthorPaid(r, r', Exposure(exposures, v), v, AmountDue(awards[v], total, issuance))
    ensures r' == PaidLedger(l, exposures, awards, total, issuance, paid + {v})
  {
    hide Credit, MintedFor, Received, TotalMinted, Exposure, AmountDue, PaidLedger;
    var x, due := Exposure(exposures, v), AmountDue(awards[v], total, issuance);
    var p := PaidLedger(l, exposures, awards, total, issuance, paid + {v});
    PaidParts(l, exposures, awards, total, issuance, paid);
    PaidParts(l, exposures, awards, total, issuance, paid + {v});
    MintedStep(l, exposures, awards, total, issuance, paid, v);
    SameMints(l, r, x, v, due);
    forall a | a in l.accounts ensures r'.accounts[a] == p.accounts[a] {
      ReceivedStep(l, exposures, awards, total, issuance, paid, v, a);
      assert Credit(r, x, v, due, a) == Credit(l, x, v, due, a);
    }
    SameLedger(r', p);
  }

  // The library's sort.

  ghost predicate SortedBy<T>(t: seq<T>, key: T -> int) {
    forall i, j :: 0 <= i < j < |t| ==> key(t[i]) <= key(t[j])
  }

  lemma PutPermutes<T>(t: seq<T>, k: nat, x: T)
    requires k <= |t|
    ensures multiset(t[..k] + [x] + t[k..]) == multiset(t) + multiset{x}
  {
    var a, c := t[..k], t[k..];
    assert t == a + c;
  }

  lemma PutSorts<T>(t: seq<T>, key: T -> int, k: nat, x: T)
    requires SortedBy(t, key) && k <= |t|
    requires forall j :: 0 <= j < k ==> key(t[j]) <= key(x)
    requires k < |t| ==> key(x) <= key(t[k])
    ensures SortedBy(t[..k] + [x] + t[k..], key)
  {
    var u := t[..k] + [x] + t[k..];
    forall i, j | 0 <= i < j < |u| ensures key(u[i]) <= key(u[j]) {
      if j < k {
        assert u[i] == t[i] && u[j] == t[j];
      } else if j == k {
        assert u[i] == t[i] && u[j] == x;
      } else if i < k {
        assert u[i] == t[i] && u[j] == t[j - 1];
      } else if i == k {
        assert u[i] == x && u[j] == t[j - 1];
        assert k < j - 1 ==> key(t[k]) <= key(t[j - 1]);
      } else {
        assert u[i] == t[i - 1] && u[j] == t[j - 1];
      }
    }
  }

  /** Sorts by a key; elements with equal keys come out in any order. */
  method SortBy<T>(s: seq<T>, key: T -> int) returns (t: seq<T>)
    ensures multiset(t) == multiset(s) && SortedBy(t, key)
  {
    t := [];
    for i := 0 to |s|
      invariant multiset(t) == multiset(s[..i]) && SortedBy(t, key)
    {
      hide SortedBy;
      var x, k := s[i], 0;
      var stop := false;
      while k < |t| && key(t[k]) <= key(x) && !stop
        invariant k <= |t| && forall j :: 0 <= j < k ==> key(t[j]) <= key(x)
        invariant stop ==> k < |t| && key(x) <= key(t[k])
        decreases |t| - k, !stop
      {
        var first: bool := *;
        if first && key(t[k]) == key(x) {
          stop := true;
        } else {
          k := k + 1;
        }
      }
      PutPermutes(t, k, x);
      PutSorts(t, key, k, x);
      t := t[..k] + [x] + t[k..];
      assert s[..i + 1] == s[..i] + [x];
    }
    assert s[..|s|] == s;
  }

  // Selection.

  lemma PermutedOwners(s: seq<Bond>, t: seq<Bond>, i: nat, j: nat)
    requires Sorted(s) && multiset(t) == multiset(s) && i < j < |t|
    ensures t[i].owner != t[j].owner
  {
    assert t[i] in multiset(t) && t[j] in multiset(t);
    var k :| 0 <= k < |s| && s[k] == t[i];
    var l :| 0 <= l < |s| && s[l] == t[j];
    if t[i].owner == t[j].owner {
      assert k == l;
      TwiceIn(t, i, j);
      OnceIn(s, t[i]);
      assert false;
    }
  }

  lemma PermutedAt(s: seq<Bond>, t: seq<Bond>, i: nat)
    requires Sorted(s) && multiset(t) == multiset(s) && i < |t|
    ensures t[i].owner in ToMap(s) && ToMap(s)[t[i].owner] == t[i].amount
  {
    assert t[i] in multiset(t);
    var k :| 0 <= k < |s| && s[k] == t[i];
    hide Sorted, ToMap;
    RemovedAt(s, k);
  }

  lemma PermutedFinds(s: seq<Bond>, t: seq<Bond>, x: AccountId) returns (i: nat)
    requires Sorted(s) && multiset(t) == multiset(s) && x in ToMap(s)
    ensures i < |t| && t[i].owner == x
  {
    ToMapKeys(s);
    hide ToMap;
    var k :| 0 <= k < |s| && s[k].owner == x;
    assert s[k] in multiset(s);
    i :| 0 <= i < |t| && t[i] == s[k];
  }

  /** The owners of the last `k` bonds, the last first. */
  function Heaviest(t: seq<Bond>, k: nat): (xs: seq<AccountId>)
    requires k <= |t|
    ensures |xs| == k && forall i :: 0 <= i < k ==> xs[i] == t[|t| - 1 - i].owner
  {
    seq(k, i requires 0 <= i < k => t[|t| - 1 - i].owner)
  }

  lemma {:induction false} DifferentSize(xs: seq<AccountId>)
    requires Distinct(xs)
    ensures |Elements(xs)| == |xs|
    decreases |xs|
  {
    if xs != [] {
      var t := xs[1..];
      DifferentSize(t);
      assert xs[0] !in t;
      assert Elements(xs) == Elements(t) + {xs[0]};
    }
  }

  lemma InHeaviest(t: seq<Bond>, k: nat, j: nat)
    requires k <= |t| && |t| - k <= j < |t|
    ensures t[j].owner in Elements(Heaviest(t, k))
  {
    assert Heaviest(t, k)[|t| - 1 - j] == t[j].owner;
  }

  lemma HeaviestAt(t: seq<Bond>, k: nat, c: AccountId) returns (j: nat)
    requires k <= |t| && c in Elements(Heaviest(t, k))
    ensures |t| - k <= j < |t| && t[j].owner == c
  {
    var i :| 0 <= i < k && Heaviest(t, k)[i] == c;
    j := |t| - 1 - i;
  }

  lemma HeaviestDiffer(s: seq<Bond>, t: seq<Bond>, k: nat)
    requires Sorted(s) && multiset(t) == multiset(s) && k <= |t|
    ensures Distinct(Heaviest(t, k)) && |Elements(Heaviest(t, k))| == k
  {
    hide Sorted;
    var xs := Heaviest(t, k);
    forall i, j | 0 <= i < j < |xs| ensures xs[i] != xs[j] {
      PermutedOwners(s, t, |t| - 1 - j, |t| - 1 - i);
    }
    DifferentSize(xs);
  }

  lemma HeaviestPooled(s: seq<Bond>, t: seq<Bond>, k: nat)
    requires Sorted(s) && multiset(t) == multiset(s) && k <= |t|
    ensures Elements(Heaviest(t, k)) <= ToMap(s).Keys
  {
    hide Sorted, ToMap, Elements, Heaviest;
    forall c | c in Elements(Heaviest(t, k)) ensures c in ToMap(s) {
      var j := HeaviestAt(t, k, c);
      PermutedAt(s, t, j);
    }
  }

  lemma LeftOutIsLighter(s: seq<Bond>, t: seq<Bond>, k: nat, c: AccountId, d: AccountId)
    requires Sorted(s) && multiset(t) == multiset(s) && SortedBy(t, (b: Bond) => b.amount) && k <= |t|
    requires c in Elements(Heaviest(t, k)) && d in ToMap(s) && d !in Elements(Heaviest(t, k))
    ensures c in ToMap(s) && ToMap(s)[d] <= ToMap(s)[c]
  {
    hide Sorted, ToMap, Elements, Heaviest;
    var i := HeaviestAt(t, k, c);
    var j := PermutedFinds(s, t, d);
    PermutedAt(s, t, i);
    PermutedAt(s, t, j);
    if |t| - k <= j {
      InHeaviest(t, k, j);
      assert false;
    }
    assert j < i;
  }

  /** The last bonds in order of amount are a best choice from the pool, whatever the order of ties. */
  lemma HeaviestIsBest(s: seq<Bond>, t: seq<Bond>, k: nat)
    requires Sorted(s) && multiset(t) == multiset(s) && SortedBy(t, (b: Bond) => b.amount)
    requires k == if |s| < cfg.maxValidators then |s| else cfg.maxValidators
    ensures k <= |t| && Distinct(Heaviest(t, k)) && BestChoice(ToMap(s), Elements(Heaviest(t, k)))
  {
    assert |multiset(t)| == |t| && |multiset(s)| == |s|;
    OwnersList(s);
    hide Sorted, ToMap, Elements, Heaviest, Distinct, SortedBy, Lists, Increasing, List, Owners;
    var chosen, pool := Elements(Heaviest(t, k)), ToMap(s);
    HeaviestDiffer(s, t, k);
    HeaviestPooled(s, t, k);
    forall c, d | c in chosen && d in pool && d !in chosen ensures pool[d] <= pool[c] {
      LeftOutIsLighter(s, t, k, c, d);
    }
  }

  /** Different accounts in order are the ascending list of their set. */
  lemma InOrder(xs: seq<AccountId>, ys: seq<AccountId>)
    requires Distinct(xs) && multiset(ys) == multiset(xs) && SortedBy(ys, (a: AccountId) => a)
    ensures ys == List(Elements(xs))
  {
    forall i, j | 0 <= i < j < |ys| ensures ys[i] < ys[j] {
      if ys[i] == ys[j] {
        TwiceIn(ys, i, j);
        OnceIn(xs, ys[i]);
        assert false;
      }
      assert ((a: AccountId) => a)(ys[i]) <= ((a: AccountId) => a)(ys[j]);
    }
    forall x ensures x in ys <==> x in Elements(xs) {
      assert x in multiset(ys) <==> x in multiset(xs);
    }
    hide Elements, Distinct, SortedBy, List;
    ListUnique(ys, Elements(xs));
  }
}
