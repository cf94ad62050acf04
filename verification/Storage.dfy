/** The pallet's storage as the state that the specification speaks of. */
module Storage {
  import opened Primitives
  import opened OrderedSets
  import opened Records
  import Spec = StakeSpec

  type ValidatorRecords = map<AccountId, ValidatorRecord>
  type NominatorRecords = map<AccountId, NominatorRecord>
  type SnapshotRecords = map<AccountId, SnapshotRecord>

  ghost predicate ValidatorsSorted(m: ValidatorRecords) {
    forall v :: v in m ==> Sorted(m[v].nominators)
  }

  ghost predicate NominatorsSorted(m: NominatorRecords) {
    forall n :: n in m ==> Sorted(m[n].nominations)
  }

  ghost predicate SnapshotsSorted(m: map<nat, SnapshotRecords>) {
    forall r, v :: r in m && v in m[r] ==> Sorted(m[r][v].nominators)
  }

  ghost function CandidatesOf(m: ValidatorRecords): (c: Spec.Candidates)
    ensures c.Keys == m.Keys
  {
    map v | v in m :: CandidateOf(m[v])
  }

  ghost function NominatorsOf(m: NominatorRecords): (ns: Spec.Nominators)
    ensures ns.Keys == m.Keys
  {
    map n | n in m :: NominatorOf(m[n])
  }

  ghost function ExposuresIn(m: SnapshotRecords): (x: Spec.Exposures)
    ensures x.Keys == m.Keys
  {
    map v | v in m :: SnapshotOf(m[v])
  }

  ghost function AtStakeOf(m: map<nat, SnapshotRecords>): (x: map<nat, Spec.Exposures>)
    ensures x.Keys == m.Keys
  {
    map r | r in m :: ExposuresIn(m[r])
  }

  lemma CandidateStored(m: ValidatorRecords, v: AccountId, r: ValidatorRecord)
    requires ValidatorsSorted(m) && Sorted(r.nominators)
    ensures ValidatorsSorted(m[v := r]) && CandidatesOf(m[v := r]) == CandidatesOf(m)[v := CandidateOf(r)]
  {
    hide Sorted, CandidateOf;
  }

  lemma CandidateRead(m: ValidatorRecords, v: AccountId)
    requires ValidatorsSorted(m) && v in m
    ensures Sorted(m[v].nominators) && CandidatesOf(m)[v] == CandidateOf(m[v])
  {
    hide Sorted, CandidateOf;
  }

  lemma CandidateRemoved(m: ValidatorRecords, v: AccountId)
    requires ValidatorsSorted(m)
    ensures ValidatorsSorted(m - {v}) && CandidatesOf(m - {v}) == CandidatesOf(m) - {v}
  {
    hide Sorted, CandidateOf;
  }

  lemma NominatorStored(m: NominatorRecords, n: AccountId, r: NominatorRecord)
    requires NominatorsSorted(m) && Sorted(r.nominations)
    ensures NominatorsSorted(m[n := r]) && NominatorsOf(m[n := r]) == NominatorsOf(m)[n := NominatorOf(r)]
  {
    hide Sorted, NominatorOf;
  }

  lemma NominatorRead(m: NominatorRecords, n: AccountId)
    requires NominatorsSorted(m) && n in m
    ensures Sorted(m[n].nominations) && NominatorsOf(m)[n] == NominatorOf(m[n])
  {
    hide Sorted, NominatorOf;
  }

  lemma NominatorRemoved(m: NominatorRecords, n: AccountId)
    requires NominatorsSorted(m)
    ensures NominatorsSorted(m - {n}) && NominatorsOf(m - {n}) == NominatorsOf(m) - {n}
  {
    hide Sorted, NominatorOf;
  }

  function RecordsOf(m: map<nat, SnapshotRecords>, r: nat): SnapshotRecords {
    if r in m then m[r] else map[]
  }

  lemma ExposureTaken(m: map<nat, SnapshotRecords>, r: nat, v: AccountId)
    requires SnapshotsSorted(m)
    ensures var records, was := RecordsOf(m, r), Spec.ExposuresOf(AtStakeOf(m), r);
      && SnapshotsSorted(m[r := records - {v}]) && AtStakeOf(m[r := records - {v}]) == AtStakeOf(m)[r := was - {v}]
      && (v in records <==> v in was)
      && (v in records ==> Sorted(records[v].nominators) && SnapshotOf(records[v]) == was[v])
  {
    hide Sorted, SnapshotOf;
    var records := RecordsOf(m, r);
    assert ExposuresIn(records - {v}) == ExposuresIn(records) - {v};
    assert r !in m ==> ExposuresIn(records) == map[];
  }

  lemma ExposureStored(m: map<nat, SnapshotRecords>, r: nat, v: AccountId, x: SnapshotRecord)
    requires SnapshotsSorted(m) && Sorted(x.nominators)
    ensures var records, was := RecordsOf(m, r), Spec.ExposuresOf(AtStakeOf(m), r);
      && SnapshotsSorted(m[r := records[v := x]])
      && AtStakeOf(m[r := records[v := x]]) == AtStakeOf(m)[r := was[v := SnapshotOf(x)]]
  {
    hide Sorted, SnapshotOf;
    var records := RecordsOf(m, r);
    assert ExposuresIn(records[v := x]) == ExposuresIn(records)[v := SnapshotOf(x)];
    assert r !in m ==> ExposuresIn(records) == map[];
  }

  lemma TakenOnce(all: map<nat, Spec.Exposures>, r: nat, paid: set<AccountId>, v: AccountId)
    requires v !in paid
    ensures var was := Spec.ExposuresOf(all, r);
      && Spec.Exposure(was - paid, v) == Spec.Exposure(was, v)
      && was - paid - {v} == was - (paid + {v})
      && (paid == {} ==> was - paid == was)
      && Spec.ExposuresOf(all[r := was - paid], r) == was - paid
      && all[r := was - paid][r := was - (paid + {v})] == all[r := was - (paid + {v})]
  {
  }
}
