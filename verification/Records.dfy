/** The two records of a bond, as the objects that the dispatchables decode from storage, change in
    place and encode again: `Validator` and `Nominator`. */
module Records {
  import opened Primitives
  import opened OrderedSets
  import Spec = StakeSpec

  // What is stored.

  datatype ValidatorRecord = ValidatorRecord(
    id: AccountId,
    fee: Perbill,
    bond: int,
    nominators: seq<Bond>,
    total: int,
    state: Spec.Status)

  datatype NominatorRecord = NominatorRecord(nominations: seq<Bond>, total: int)

  datatype SnapshotRecord = SnapshotRecord(fee: Perbill, bond: int, nominators: seq<Bond>, total: int)

  ghost function CandidateOf(r: ValidatorRecord): Spec.Candidate {
    Spec.Candidate(r.id, r.fee, r.bond, ToMap(r.nominators), r.total, r.state)
  }

  ghost function NominatorOf(r: NominatorRecord): Spec.Nominator {
    Spec.Nominator(ToMap(r.nominations), r.total)
  }

  ghost function SnapshotOf(r: SnapshotRecord): Spec.Snapshot {
    Spec.Snapshot(r.fee, r.bond, ToMap(r.nominators), r.total)
  }

  // Scans of a vector of bonds.

  lemma NoOwner(s: seq<Bond>, owner: AccountId)
    requires forall i :: 0 <= i < |s| ==> s[i].owner != owner
    ensures owner !in ToMap(s)
  {
    ToMapKeys(s);
  }

  lemma NotTwice(s: seq<Bond>, k: nat, i: nat)
    requires Sorted(s) && k < i < |s|
    ensures s[k].owner != s[i].owner
  {
  }

  /** Everything but the bond of `owner`, and the amount of that bond if there is one. */
  method FilterOut(s: seq<Bond>, owner: AccountId) returns (rest: seq<Bond>, found: Option<int>)
    requires Sorted(s)
    ensures Sorted(rest) && ToMap(rest) == ToMap(s) - {owner}
    ensures found == if owner in ToMap(s) then Some(ToMap(s)[owner]) else None
  {
    hide Sorted, ToMap;
    rest, found := [], None;
    ghost var k: nat := 0;
    for i := 0 to |s|
      invariant found.None? ==> rest == s[..i] && forall j :: 0 <= j < i ==> s[j].owner != owner
      invariant found.Some? ==> k < i && s[k].owner == owner && found.value == s[k].amount && rest == s[..k] + s[k + 1..i]
    {
      if found.Some? {
        NotTwice(s, k, i);
      }
      if s[i].owner == owner {
        found, k := Some(s[i].amount), i;
      } else {
        rest := rest + [s[i]];
      }
    }
    if found.Some? {
      assert rest == s[..k] + s[k + 1..];
      RemovedAt(s, k);
    } else {
      NoOwner(s, owner);
      assert rest == s;
    }
  }

  /** Where the bond of `owner` is, or the length of the vector. */
  method IndexOf(s: seq<Bond>, owner: AccountId) returns (at: nat)
    requires Sorted(s)
    ensures at <= |s| && (at < |s| <==> owner in ToMap(s))
    ensures at < |s| ==> s[at].owner == owner && ToMap(s)[owner] == s[at].amount
  {
    hide Sorted, ToMap;
    at := 0;
    while at < |s|
      invariant at <= |s| && forall j :: 0 <= j < at ==> s[j].owner != owner
    {
      if s[at].owner == owner {
        RemovedAt(s, at);
        return;
      }
      at := at + 1;
    }
    NoOwner(s, owner);
  }

  class Validator {
    var id: AccountId
    var fee: Perbill
    var bond: int
    var nominators: OrderedSet
    var total: int
    var state: Spec.Status

    ghost predicate Valid()
      reads this, nominators
    {
      nominators.Valid()
    }

    ghost function View(): Spec.Candidate
      reads this, nominators
    {
      Spec.Candidate(id, fee, bond, nominators.Entries(), total, state)
    }

    constructor (id: AccountId, fee: Perbill, bond: int)
      ensures Valid() && fresh(nominators) && View() == Spec.Candidate(id, fee, bond, map[], bond, Spec.Active)
    {
      this.id, this.fee, this.bond, total, state := id, fee, bond, bond, Spec.Active;
      nominators := new OrderedSet();
    }

    constructor Decode(r: ValidatorRecord)
      requires Sorted(r.nominators)
      ensures Valid() && fresh(nominators) && View() == CandidateOf(r) && nominators.elems == r.nominators
    {
      id, fee, bond, total, state := r.id, r.fee, r.bond, r.total, r.state;
      nominators := new OrderedSet.FromSortedSet(r.nominators);
    }

    function Encode(): (r: ValidatorRecord)
      reads this, nominators
      requires Valid()
      ensures Sorted(r.nominators) && CandidateOf(r) == View()
    {
      ValidatorRecord(id, fee, bond, nominators.elems, total, state)
    }

    predicate IsActive()
      reads this
    {
      state == Spec.Active
    }

    predicate IsLeaving()
      reads this
    {
      state.Leaving?
    }

    method BondMore(more: int)
      requires Valid()
      modifies this
      ensures Valid() && nominators == old(nominators)
      ensures View() == old(View()).(bond := old(bond) + more, total := old(total) + more)
    {
      bond := bond + more;
      total := total + more;
    }

    /** None, with nothing changed, unless something is left of the bond. */
    method BondLess(less: int) returns (left: Option<int>)
      requires Valid()
      modifies this
      ensures Valid() && nominators == old(nominators)
      ensures left == if old(bond) > less then Some(old(bond) - less) else None
      ensures View() == if old(bond) > less then old(View()).(bond := old(bond) - less, total := old(total) - less) else old(View())
    {
      if bond > less {
        bond := bond - less;
        total := total - less;
        return Some(bond);
      } else {
        return None;
      }
    }

    method RmNominator(nominator: AccountId) returns (newTotal: int)
      requires Valid()
      modifies this
      ensures Valid() && fresh(nominators)
      ensures View() == Spec.RmNominator(old(View()), nominator) && newTotal == total
      ensures var c := old(View());
        View() == c.(nominators := c.nominators - {nominator},
                     total := if nominator in c.nominators then c.total - c.nominators[nominator] else c.total)
    {
      var rest, found := FilterOut(nominators.elems, nominator);
      newTotal := if found.Some? then total - found.value else total;
      nominators := new OrderedSet.From(rest);
      total := newTotal;
    }

    method AddNominator(owner: AccountId, amount: int) returns (newTotal: int)
      requires Valid()
      modifies this, nominators
      ensures Valid() && nominators == old(nominators)
      ensures View() == Spec.AddNominator(old(View()), owner, amount) && newTotal == total
      ensures var c := old(View());
        && (owner !in c.nominators ==> View() == c.(nominators := c.nominators[owner := amount], total := c.total + amount))
        && (owner in c.nominators ==> View() == c.(total := c.total + amount))
    {
      var inserted := nominators.Insert(Bond(owner, amount));
      total := total + amount;
      return total;
    }

    method UpdateNominator(nominator: AccountId, amount: int) returns (newTotal: int)
      requires Valid()
      modifies this
      ensures Valid() && fresh(nominators)
      ensures View() == Spec.UpdateNominator(old(View()), nominator, amount) && newTotal == total
      ensures var c := old(View());
        && (nominator in c.nominators ==>
              View() == c.(nominators := c.nominators[nominator := amount], total := c.total + (amount - c.nominators[nominator])))
        && (nominator !in c.nominators ==> View() == c)
    {
      var difference := 0;
      var s, updated := nominators.elems, [];
      ghost var k: nat := |s|;
      for i := 0 to |s|
        invariant unchanged(this)
        invariant |updated| == i
        invariant forall j :: 0 <= j < i ==> updated[j] == if s[j].owner == nominator then Bond(nominator, amount) else s[j]
        invariant k == |s| || k < i
        invariant forall j :: 0 <= j < i ==> (s[j].owner == nominator <==> j == k)
        invariant difference == if k < i then amount - s[k].amount else 0
      {
        if k < i {
          NotTwice(s, k, i);
        }
        if s[i].owner == nominator {
          difference := amount - s[i].amount;
          updated := updated + [Bond(s[i].owner, amount)];
          k := i;
        } else {
          updated := updated + [s[i]];
        }
      }
      if k < |s| {
        AmountSet(s, k, amount);
        RemovedAt(s, k);
        assert updated == s[k := Bond(nominator, amount)];
      } else {
        NoOwner(s, nominator);
        assert updated == s;
      }
      nominators := new OrderedSet.From(updated);
      total := total + difference;
      return total;
    }

    method IncNominator(nominator: AccountId, more: int)
      requires Valid()
      modifies this, nominators
      ensures Valid() && nominators == old(nominators)
      ensures View() == Spec.AdjustNominator(old(View()), nominator, more)
      ensures var c := old(View());
        && (nominator in c.nominators ==>
              View() == c.(nominators := c.nominators[nominator := c.nominators[nominator] + more], total := c.total + more))
        && (nominator !in c.nominators ==> View() == c)
    {
      var k := IndexOf(nominators.elems, nominator);
      if k < |nominators.elems| {
        var x := nominators.elems[k];
        AmountSet(nominators.elems, k, x.amount + more);
        nominators.elems := nominators.elems[k := Bond(x.owner, x.amount + more)];
        total := total + more;
      }
    }

    method DecNominator(nominator: AccountId, less: int)
      requires Valid()
      modifies this, nominators
      ensures Valid() && nominators == old(nominators)
      ensures View() == Spec.AdjustNominator(old(View()), nominator, 0 - less)
      ensures var c := old(View());
        && (nominator in c.nominators ==>
              View() == c.(nominators := c.nominators[nominator := c.nominators[nominator] - less], total := c.total - less))
        && (nominator !in c.nominators ==> View() == c)
    {
      var k := IndexOf(nominators.elems, nominator);
      if k < |nominators.elems| {
        var x := nominators.elems[k];
        AmountSet(nominators.elems, k, x.amount - less);
        nominators.elems := nominators.elems[k := Bond(x.owner, x.amount - less)];
        total := total - less;
      }
    }

    method GoOffline()
      requires Valid()
      modifies this
      ensures Valid() && nominators == old(nominators) && View() == old(View()).(status := Spec.Idle)
    {
      state := Spec.Idle;
    }

    method GoOnline()
      requires Valid()
      modifies this
      ensures Valid() && nominators == old(nominators) && View() == old(View()).(status := Spec.Active)
    {
      state := Spec.Active;
    }

    method LeaveCandidates(round: int)
      requires Valid()
      modifies this
      ensures Valid() && nominators == old(nominators) && View() == old(View()).(status := Spec.Leaving(round))
    {
      state := Spec.Leaving(round);
    }

    function IntoSnapshot(): (x: SnapshotRecord)
      reads this, nominators
      requires Valid()
      ensures Sorted(x.nominators) && SnapshotOf(x) == Spec.SnapshotOf(View())
      ensures Spec.Copies(SnapshotOf(x), View())
    {
      SnapshotRecord(fee, bond, nominators.elems, total)
    }
  }

  class Nominator {
    var nominations: OrderedSet
    var total: int

    ghost predicate Valid()
      reads this, nominations
    {
      nominations.Valid()
    }

    ghost function View(): Spec.Nominator
      reads this, nominations
    {
      Spec.Nominator(nominations.Entries(), total)
    }

    constructor (validator: AccountId, nomination: int)
      ensures Valid() && fresh(nominations) && View() == Spec.Nominator(map[validator := nomination], nomination)
    {
      nominations := new OrderedSet.From([Bond(validator, nomination)]);
      total := nomination;
      new;
      assert [Bond(validator, nomination)][1..] == [];
    }

    constructor Decode(r: NominatorRecord)
      requires Sorted(r.nominations)
      ensures Valid() && fresh(nominations) && View() == NominatorOf(r) && nominations.elems == r.nominations
    {
      nominations := new OrderedSet.FromSortedSet(r.nominations);
      total := r.total;
    }

    function Encode(): (r: NominatorRecord)
      reads this, nominations
      requires Valid()
      ensures Sorted(r.nominations) && NominatorOf(r) == View()
    {
      NominatorRecord(nominations.elems, total)
    }

    method AddNomination(bond: Bond) returns (added: bool)
      requires Valid()
      modifies this, nominations
      ensures Valid() && nominations == old(nominations)
      ensures added <==> bond.owner !in old(View()).nominations
      ensures View() == if added then Spec.Nominator(old(View()).nominations[bond.owner := bond.amount], old(total) + bond.amount)
                        else old(View())
    {
      added := nominations.Insert(bond);
      if added {
        total := total + bond.amount;
      }
    }

    /** What remains in all, or None, with nothing changed, when `validator` is not nominated. */
    method RmNomination(validator: AccountId) returns (remaining: Option<int>)
      requires Valid()
      modifies this
      ensures Valid() && (nominations == old(nominations) || fresh(nominations))
      ensures validator !in old(View()).nominations ==> remaining == None && View() == old(View())
      ensures validator in old(View()).nominations ==> remaining == Some(total) && View() == Spec.RmNomination(old(View()), validator)
      ensures validator in old(View()).nominations ==>
                View().nominations == old(View()).nominations - {validator} && total == old(total) - old(View()).nominations[validator]
    {
      var rest, amount := FilterOut(nominations.elems, validator);
      if amount.Some? {
        nominations := new OrderedSet.From(rest);
        total := total - amount.value;
        return Some(total);
      } else {
        return None;
      }
    }

    /** The amount swapped and the amount the new nomination then has, or None, with nothing changed,
        when `from` is not nominated. */
    method SwapNomination(from: AccountId, to: AccountId) returns (amounts: Option<(int, int)>)
      requires Valid()
      modifies this
      ensures Valid() && (nominations == old(nominations) || fresh(nominations))
      ensures from !in old(View()).nominations ==> amounts == None && View() == old(View())
      ensures from in old(View()).nominations ==>
                && View() == Spec.SwapNomination(old(View()), from, to)
                && amounts == Some((old(View()).nominations[from], View().nominations[to]))
      ensures from in old(View()).nominations ==>
                && total == old(total)
                && (to !in old(View()).nominations ==>
                      View().nominations == (old(View()).nominations - {from})[to := old(View()).nominations[from]])
                && (to in old(View()).nominations ==>
                      View().nominations == old(View()).nominations[to := old(View()).nominations[to] + old(View()).nominations[from]])
    {
      var all := nominations.elems;
      var rest, amount := FilterOut(all, from);
      if amount.None? {
        return None;
      }
      var rest2, existing := FilterOut(all, to);
      var newAmount: int;
      if existing.Some? {
        nominations := new OrderedSet.From(rest2);
        newAmount := existing.value + amount.value;
      } else {
        nominations := new OrderedSet.From(rest);
        newAmount := amount.value;
      }
      var inserted := nominations.Insert(Bond(to, newAmount));
      amounts := Some((amount.value, newAmount));
    }

    method IncNomination(validator: AccountId, more: int) returns (amount: Option<int>)
      requires Valid()
      modifies this, nominations
      ensures Valid() && nominations == old(nominations)
      ensures validator !in old(View()).nominations ==> amount == None && View() == old(View())
      ensures validator in old(View()).nominations ==>
                View() == Spec.AdjustNomination(old(View()), validator, more) && amount == Some(View().nominations[validator])
      ensures validator in old(View()).nominations ==>
                && View().nominations == old(View()).nominations[validator := old(View()).nominations[validator] + more]
                && total == old(total) + more
    {
      var k := IndexOf(nominations.elems, validator);
      if k == |nominations.elems| {
        return None;
      }
      var x := nominations.elems[k];
      AmountSet(nominations.elems, k, x.amount + more);
      nominations.elems := nominations.elems[k := Bond(x.owner, x.amount + more)];
      total := total + more;
      return Some(x.amount + more);
    }

    /** None when `validator` is not nominated, Some(None) when nothing would be left of the nomination. */
    method DecNomination(validator: AccountId, less: int) returns (amount: Option<Option<int>>)
      requires Valid()
      modifies this, nominations
      ensures Valid() && nominations == old(nominations)
      ensures amount == if validator !in old(View()).nominations then None
                        else if old(View()).nominations[validator] <= less then Some(None)
                        else Some(Some(old(View()).nominations[validator] - less))
      ensures View() == if amount.None? || amount.value.None? then old(View())
                        else Spec.AdjustNomination(old(View()), validator, 0 - less)
      ensures amount.Some? && amount.value.Some? ==>
                && View().nominations == old(View()).nominations[validator := old(View()).nominations[validator] - less]
                && total == old(total) - less
    {
      var k := IndexOf(nominations.elems, validator);
      if k == |nominations.elems| {
        return None;
      }
      var x := nominations.elems[k];
      if x.amount > less {
        AmountSet(nominations.elems, k, x.amount - less);
        nominations.elems := nominations.elems[k := Bond(x.owner, x.amount - less)];
        total := total - less;
        return Some(Some(x.amount - less));
      } else {
        return Some(None);
      }
    }
  }
}
