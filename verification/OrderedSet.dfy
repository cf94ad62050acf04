/** `OrderedSet`: a vector of bonds kept in strict order of owner, read as a finite map from owner to
    amount (`set.rs`). Two bonds compare equal when their owners do. */
module OrderedSets {
  import opened Primitives
  import opened Ascending

  datatype Bond = Bond(owner: AccountId, amount: int)

  function Owners(s: seq<Bond>): seq<AccountId> {
    seq(|s|, i requires 0 <= i < |s| => s[i].owner)
  }

  ghost predicate Sorted(s: seq<Bond>) {
    forall i, j :: 0 <= i < j < |s| ==> s[i].owner < s[j].owner
  }

  /** The map that a vector of bonds stands for: of several bonds of one owner, the first counts. */
  ghost function ToMap(s: seq<Bond>): map<AccountId, int> {
    if s == [] then map[] else ToMap(s[1..])[s[0].owner := s[0].amount]
  }

  lemma {:induction false} ToMapKeys(s: seq<Bond>)
    ensures forall i :: 0 <= i < |s| ==> s[i].owner in ToMap(s)
    ensures forall x :: x in ToMap(s) ==> exists i :: 0 <= i < |s| && s[i].owner == x
    decreases |s|
  {
    if s != [] {
      ToMapKeys(s[1..]);
      forall i | 0 <= i < |s| ensures s[i].owner in ToMap(s) {
        if i > 0 {
          assert s[1..][i - 1].owner in ToMap(s[1..]);
        }
      }
      forall x | x in ToMap(s) ensures exists i :: 0 <= i < |s| && s[i].owner == x {
        if x != s[0].owner {
          var i :| 0 <= i < |s[1..]| && s[1..][i].owner == x;
          assert s[i + 1].owner == x;
        }
      }
    }
  }

  lemma {:induction false} ToMapConcat(a: seq<Bond>, b: seq<Bond>)
    ensures ToMap(a + b) == ToMap(b) + ToMap(a)
    decreases |a|
  {
    if a == [] {
      assert a + b == b;
    } else {
      assert (a + b)[1..] == a[1..] + b;
      ToMapConcat(a[1..], b);
    }
  }

  /** The owners of a sorted vector list its keys, and there are as many of them. */
  lemma OwnersList(s: seq<Bond>)
    requires Sorted(s)
    ensures Increasing(Owners(s)) && Lists(Owners(s), ToMap(s).Keys)
    ensures Owners(s) == List(ToMap(s).Keys) && |s| == |ToMap(s)|
  {
    var xs := Owners(s);
    ToMapKeys(s);
    forall x ensures x in xs <==> x in ToMap(s).Keys {
      if x in ToMap(s) {
        var i :| 0 <= i < |s| && s[i].owner == x;
        assert xs[i] == x;
      }
    }
    ListUnique(xs, ToMap(s).Keys);
  }

  // Edits of a sorted vector.

  ghost predicate Below(a: seq<Bond>, b: seq<Bond>) {
    forall i, j :: 0 <= i < |a| && 0 <= j < |b| ==> a[i].owner < b[j].owner
  }

  lemma SortedConcat(a: seq<Bond>, b: seq<Bond>)
    ensures Sorted(a + b) <==> Sorted(a) && Sorted(b) && Below(a, b)
  {
    var s := a + b;
    if Sorted(s) {
      forall i, j | 0 <= i < j < |b| ensures b[i].owner < b[j].owner {
        assert s[|a| + i] == b[i] && s[|a| + j] == b[j];
      }
      forall i, j | 0 <= i < j < |a| ensures a[i].owner < a[j].owner {
        assert s[i] == a[i] && s[j] == a[j];
      }
      forall i, j | 0 <= i < |a| && 0 <= j < |b| ensures a[i].owner < b[j].owner {
        assert s[i] == a[i] && s[|a| + j] == b[j];
      }
    }
  }

  lemma BelowConcat(a: seq<Bond>, b: seq<Bond>, c: seq<Bond>)
    ensures Below(a + b, c) <==> Below(a, c) && Below(b, c)
    ensures b != [] && Sorted(b) && Below(a, b) && Below(b, c) ==> Below(a, c)
  {
    var s := a + b;
    if Below(s, c) {
      forall i, j | 0 <= i < |b| && 0 <= j < |c| ensures b[i].owner < c[j].owner {
        assert s[|a| + i] == b[i];
      }
      forall i, j | 0 <= i < |a| && 0 <= j < |c| ensures a[i].owner < c[j].owner {
        assert s[i] == a[i];
      }
    }
    if b != [] && Below(a, b) && Below(b, c) {
      forall i, j | 0 <= i < |a| && 0 <= j < |c| ensures a[i].owner < c[j].owner {
        assert a[i].owner < b[0].owner < c[j].owner;
      }
    }
  }

  lemma ThreeParts(a: seq<Bond>, b: Bond, c: seq<Bond>)
    ensures Sorted(a + [b] + c) <==> Sorted(a + c) && Below(a, [b]) && Below([b], c)
    ensures Sorted(a + c) ==> Sorted(a)
  {
    SortedConcat(a, [b]);
    SortedConcat(a + [b], c);
    SortedConcat(a, c);
    BelowConcat(a, [b], c);
    hide Below;
    assert Sorted([b]);
  }

  lemma OwnerBetween(a: seq<Bond>, b: Bond, c: seq<Bond>)
    requires Below(a, [b]) && Below([b], c)
    ensures b.owner !in ToMap(a) && b.owner !in ToMap(c)
  {
    ToMapKeys(a);
    ToMapKeys(c);
    hide ToMap;
    assert [b][0] == b;
  }

  lemma SpliceMaps(p: map<AccountId, int>, k: AccountId, x: int, q: map<AccountId, int>)
    requires k !in p && k !in q
    ensures q + (map[k := x] + p) == (q + p)[k := x]
    ensures k !in q + p && q + p == (q + p)[k := x] - {k}
  {
  }

  /** One bond between smaller and larger owners: put in, taken out, given another amount. */
  lemma Splice(a: seq<Bond>, b: Bond, c: seq<Bond>)
    requires Below(a, [b]) && Below([b], c)
    ensures b.owner !in ToMap(a + c)
    ensures ToMap(a + [b] + c) == ToMap(a + c)[b.owner := b.amount]
    ensures ToMap(a + c) == ToMap(a + [b] + c) - {b.owner}
  {
    assert ToMap([b]) == map[b.owner := b.amount] by { assert [b][1..] == []; }
    OwnerBetween(a, b, c);
    hide ToMap, Below;
    ToMapConcat(a, c);
    ToMapConcat(a + [b], c);
    ToMapConcat(a, [b]);
    SpliceMaps(ToMap(a), b.owner, b.amount, ToMap(c));
  }

  lemma InsertedAt(s: seq<Bond>, k: nat, b: Bond)
    requires Sorted(s) && k <= |s|
    requires forall i :: 0 <= i < k ==> s[i].owner < b.owner
    requires forall i :: k <= i < |s| ==> b.owner < s[i].owner
    ensures b.owner !in ToMap(s)
    ensures Sorted(s[..k] + [b] + s[k..]) && ToMap(s[..k] + [b] + s[k..]) == ToMap(s)[b.owner := b.amount]
  {
    hide ToMap, Sorted;
    var a, c := s[..k], s[k..];
    assert s == a + c;
    assert Below(a, [b]) && Below([b], c);
    hide Below;
    ThreeParts(a, b, c);
    Splice(a, b, c);
  }

  lemma RemovedAt(s: seq<Bond>, k: nat)
    requires Sorted(s) && k < |s|
    ensures Sorted(s[..k] + s[k + 1..]) && ToMap(s[..k] + s[k + 1..]) == ToMap(s) - {s[k].owner}
    ensures s[k].owner in ToMap(s) && ToMap(s)[s[k].owner] == s[k].amount
  {
    hide ToMap, Sorted, Below;
    var a, c := s[..k], s[k + 1..];
    assert s == a + [s[k]] + c;
    ThreeParts(a, s[k], c);
    Splice(a, s[k], c);
  }

  lemma AmountSet(s: seq<Bond>, k: nat, x: int)
    requires Sorted(s) && k < |s|
    ensures Sorted(s[k := Bond(s[k].owner, x)]) && ToMap(s[k := Bond(s[k].owner, x)]) == ToMap(s)[s[k].owner := x]
  {
    hide ToMap, Sorted;
    var a, b, c := s[..k], Bond(s[k].owner, x), s[k + 1..];
    assert s == a + [s[k]] + c && s[k := b] == a + [b] + c;
    ThreeParts(a, s[k], c);
    ThreeParts(a, b, c);
    assert Below(a, [b]) && Below([b], c);
    hide Below;
    Splice(a, s[k], c);
    Splice(a, b, c);
  }

  lemma Appended(s: seq<Bond>, k: nat)
    requires k < |s| && Sorted(s[..k + 1])
    ensures Sorted(s[..k]) && s[k].owner !in ToMap(s[..k])
    ensures ToMap(s[..k + 1]) == ToMap(s[..k])[s[k].owner := s[k].amount]
  {
    hide ToMap, Sorted, Below;
    var a := s[..k];
    assert s[..k + 1] == a + [s[k]] + [] && a + [] == a;
    ThreeParts(a, s[k], []);
    Splice(a, s[k], []);
  }

  lemma Keyed(a: Bond, s: seq<Bond>, x: AccountId)
    requires Below([a], s) && x in ToMap(s)
    ensures a.owner < x
  {
    ToMapKeys(s);
    hide ToMap;
    assert [a][0] == a;
  }

  /** The first owner is the least, and is not met again. */
  lemma SortedHead(s: seq<Bond>)
    requires Sorted(s) && s != []
    ensures Sorted(s[1..]) && ToMap(s[1..]) == ToMap(s) - {s[0].owner}
    ensures s[0].owner in ToMap(s) && ToMap(s)[s[0].owner] == s[0].amount
    ensures forall x :: x in ToMap(s) ==> s[0].owner <= x
  {
    RemovedAt(s, 0);
    hide ToMap, Sorted, Below;
    assert s[..0] + s[1..] == s[1..] && s == [] + [s[0]] + s[1..];
    ThreeParts([], s[0], s[1..]);
    forall x | x in ToMap(s) && x != s[0].owner ensures s[0].owner < x {
      Keyed(s[0], s[1..], x);
    }
  }

  lemma EmptyMap(s: seq<Bond>)
    ensures s == [] <==> ToMap(s) == map[]
  {
    if s != [] {
      assert s[0].owner in ToMap(s);
    }
  }

  /** A sorted vector is determined by its map. */
  lemma {:induction false} SortedUnique(a: seq<Bond>, b: seq<Bond>)
    requires Sorted(a) && Sorted(b) && ToMap(a) == ToMap(b)
    ensures a == b
    decreases |a|
  {
    EmptyMap(a);
    EmptyMap(b);
    if a != [] && b != [] {
      SortedHead(a);
      SortedHead(b);
      hide Sorted, ToMap;
      assert a[0] == b[0];
      SortedUnique(a[1..], b[1..]);
      assert a == [a[0]] + a[1..] && b == [b[0]] + b[1..];
    }
  }

  // The library's stable sort and dedup.

  /** A bond goes before the first that is not smaller. */
  function Place(b: Bond, s: seq<Bond>): seq<Bond> {
    if s == [] || b.owner <= s[0].owner then [b] + s else [s[0]] + Place(b, s[1..])
  }

  function StableSort(s: seq<Bond>): seq<Bond> {
    if s == [] then [] else Place(s[0], StableSort(s[1..]))
  }

  /** Of neighbours with one owner, the first stays. */
  function Dedup(s: seq<Bond>): seq<Bond>
    decreases |s|
  {
    if |s| < 2 then s
    else if s[0].owner == s[1].owner then Dedup([s[0]] + s[2..])
    else [s[0]] + Dedup(s[1..])
  }

  ghost predicate Ascends(s: seq<Bond>) {
    forall i, j :: 0 <= i < j < |s| ==> s[i].owner <= s[j].owner
  }

  /** The bonds of one owner, in order. */
  ghost function OfOwner(s: seq<Bond>, owner: AccountId): seq<Bond> {
    if s == [] then [] else (if s[0].owner == owner then [s[0]] else []) + OfOwner(s[1..], owner)
  }

  lemma {:induction false} PlacePermutes(b: Bond, s: seq<Bond>)
    ensures multiset(Place(b, s)) == multiset{b} + multiset(s)
    decreases |s|
  {
    if s != [] && s[0].owner < b.owner {
      PlacePermutes(b, s[1..]);
      assert s == [s[0]] + s[1..];
    }
  }

  lemma {:induction false} PlaceAscends(b: Bond, s: seq<Bond>)
    requires Ascends(s)
    ensures Ascends(Place(b, s))
    decreases |s|
  {
    if s != [] && s[0].owner < b.owner {
      var t := Place(b, s[1..]);
      PlaceAscends(b, s[1..]);
      PlacePermutes(b, s[1..]);
      forall j | 0 <= j < |t| ensures s[0].owner <= t[j].owner {
        assert t[j] in multiset(t);
        assert t[j] == b || t[j] in s[1..];
      }
    }
  }

  lemma {:induction false} PlaceKeepsOrder(b: Bond, s: seq<Bond>, owner: AccountId)
    ensures OfOwner(Place(b, s), owner) == (if b.owner == owner then [b] else []) + OfOwner(s, owner)
    decreases |s|
  {
    var t := Place(b, s);
    if s == [] || b.owner <= s[0].owner {
      assert t[1..] == s;
    } else {
      PlaceKeepsOrder(b, s[1..], owner);
      assert t[1..] == Place(b, s[1..]);
      OfOwnerPastGreater(s, owner, b);
    }
  }

  lemma OfOwnerPastGreater(s: seq<Bond>, owner: AccountId, b: Bond)
    requires s != [] && s[0].owner < b.owner
    ensures (if s[0].owner == owner then [s[0]] else []) + ((if b.owner == owner then [b] else []) + OfOwner(s[1..], owner))
         == (if b.owner == owner then [b] else []) + OfOwner(s, owner)
  {
    assert [] + OfOwner(s[1..], owner) == OfOwner(s[1..], owner);
    assert [b] + ([] + OfOwner(s[1..], owner)) == [b] + OfOwner(s[1..], owner);
  }

  /** The sort orders, permutes, and keeps the order of bonds of one owner. */
  lemma {:induction false} StableSortSorts(s: seq<Bond>, owner: AccountId)
    ensures Ascends(StableSort(s)) && multiset(StableSort(s)) == multiset(s)
    ensures OfOwner(StableSort(s), owner) == OfOwner(s, owner)
    decreases |s|
  {
    if s != [] {
      StableSortSorts(s[1..], owner);
      var t := StableSort(s[1..]);
      PlaceAscends(s[0], t);
      PlacePermutes(s[0], t);
      PlaceKeepsOrder(s[0], t, owner);
      assert s == [s[0]] + s[1..];
    }
  }

  /** The first bond of each owner is what the map holds. */
  lemma {:induction false} FirstOf(s: seq<Bond>, owner: AccountId)
    ensures owner in ToMap(s) <==> OfOwner(s, owner) != []
    ensures owner in ToMap(s) ==> ToMap(s)[owner] == OfOwner(s, owner)[0].amount
    decreases |s|
  {
    if s != [] {
      FirstOf(s[1..], owner);
    }
  }

  lemma SortKeepsMap(s: seq<Bond>)
    ensures ToMap(StableSort(s)) == ToMap(s)
  {
    forall x ensures (x in ToMap(StableSort(s)) <==> x in ToMap(s)) && (x in ToMap(s) ==> ToMap(StableSort(s))[x] == ToMap(s)[x]) {
      StableSortSorts(s, x);
      FirstOf(s, x);
      FirstOf(StableSort(s), x);
    }
  }

  lemma {:induction false} DedupSorts(s: seq<Bond>)
    requires Ascends(s)
    ensures Sorted(Dedup(s)) && ToMap(Dedup(s)) == ToMap(s)
    ensures s != [] ==> Dedup(s) != [] && Dedup(s)[0] == s[0]
    decreases |s|
  {
    if |s| >= 2 {
      if s[0].owner == s[1].owner {
        var t := [s[0]] + s[2..];
        DedupSorts(t);
        assert t[1..] == s[1..][1..];
      } else {
        DedupSorts(s[1..]);
        var d := Dedup(s[1..]);
        assert ([s[0]] + d)[1..] == d;
        assert forall i :: 0 <= i < |d| ==> d[0].owner <= d[i].owner;
      }
    }
  }

  /** `from` makes a sorted vector with the map of the one given; it is idempotent. */
  lemma FromKeepsMap(s: seq<Bond>)
    ensures Sorted(Dedup(StableSort(s))) && ToMap(Dedup(StableSort(s))) == ToMap(s)
    ensures Sorted(s) ==> Dedup(StableSort(s)) == s
  {
    StableSortSorts(s, 0);
    SortKeepsMap(s);
    DedupSorts(StableSort(s));
    if Sorted(s) {
      SortedUnique(Dedup(StableSort(s)), s);
    }
  }

  /** Binary search on a strictly increasing vector: where the key is, or where it would go. */
  method BinarySearch(xs: seq<AccountId>, x: AccountId) returns (found: bool, at: nat)
    requires Increasing(xs)
    ensures found <==> x in xs
    ensures found ==> at < |xs| && xs[at] == x
    ensures !found ==> at <= |xs| && (forall i :: 0 <= i < at ==> xs[i] < x) && (forall i :: at <= i < |xs| ==> x < xs[i])
  {
    var lo, hi := 0, |xs|;
    while lo < hi
      invariant 0 <= lo <= hi <= |xs|
      invariant forall i :: 0 <= i < lo ==> xs[i] < x
      invariant forall i :: hi <= i < |xs| ==> x < xs[i]
    {
      var mid := (lo + hi) / 2;
      if xs[mid] == x {
        return true, mid;
      } else if xs[mid] < x {
        lo := mid + 1;
      } else {
        hi := mid;
      }
    }
    return false, lo;
  }

  /** The same on a sorted vector of bonds, by owner. */
  method Search(s: seq<Bond>, owner: AccountId) returns (found: bool, at: nat)
    requires Sorted(s)
    ensures found <==> owner in ToMap(s)
    ensures found ==> at < |s| && s[at].owner == owner && ToMap(s)[owner] == s[at].amount
    ensures !found ==> at <= |s| && (forall i :: 0 <= i < at ==> s[i].owner < owner) && (forall i :: at <= i < |s| ==> owner < s[i].owner)
  {
    SearchOwners(s);
    hide Sorted, ToMap, Increasing, Owners;
    var owners := Owners(s);
    found, at := BinarySearch(owners, owner);
    if found {
      RemovedAt(s, at);
    }
  }

  lemma SearchOwners(s: seq<Bond>)
    requires Sorted(s)
    ensures Increasing(Owners(s)) && |Owners(s)| == |s|
    ensures forall i :: 0 <= i < |s| ==> s[i].owner == Owners(s)[i]
    ensures forall x :: x in Owners(s) <==> x in ToMap(s)
  {
    OwnersList(s);
  }

  class OrderedSet {
    var elems: seq<Bond>

    ghost predicate Valid()
      reads this
    {
      Sorted(elems)
    }

    ghost function Entries(): map<AccountId, int>
      reads this
    {
      ToMap(elems)
    }

    constructor ()
      ensures Valid() && Entries() == map[] && elems == []
    {
      elems := [];
    }

    /** Sorts and removes duplicates: of several bonds of one owner the first is kept. */
    constructor From(v: seq<Bond>)
      ensures Valid() && Entries() == ToMap(v)
      ensures Sorted(v) ==> elems == v
    {
      elems := Dedup(StableSort(v));
      new;
      FromKeepsMap(v);
    }

    /** Takes a vector that its caller knows to be sorted. */
    constructor FromSortedSet(v: seq<Bond>)
      ensures elems == v
    {
      elems := v;
    }

    /** Inserts a bond unless its owner has one already, whatever its amount. */
    method Insert(value: Bond) returns (inserted: bool)
      requires Valid()
      modifies this
      ensures Valid()
      ensures inserted <==> value.owner !in old(Entries())
      ensures Entries() == if inserted then old(Entries())[value.owner := value.amount] else old(Entries())
      ensures |elems| == old(|elems|) + if inserted then 1 else 0
    {
      var found, at := Search(elems, value.owner);
      if !found {
        InsertedAt(elems, at, value);
        elems := elems[..at] + [value] + elems[at..];
      }
      return !found;
    }

    /** Removes the bond of an owner, whatever its amount. */
    method Remove(value: Bond) returns (removed: bool)
      requires Valid()
      modifies this
      ensures Valid()
      ensures removed <==> value.owner in old(Entries())
      ensures Entries() == old(Entries()) - {value.owner}
    {
      var found, at := Search(elems, value.owner);
      if found {
        RemovedAt(elems, at);
        elems := elems[..at] + elems[at + 1..];
      }
      return found;
    }

    method Contains(value: Bond) returns (contained: bool)
      requires Valid()
      ensures contained <==> value.owner in Entries()
    {
      var found, at := Search(elems, value.owner);
      return found;
    }

    method Clear()
      modifies this
      ensures Valid() && Entries() == map[] && elems == []
    {
      elems := [];
    }
  }
}
