/** A small ledger in place of the balances pallet: what each account has free and reserved, and
    the total issuance. Besides the storage it carries one history variable, `held`: for every
    account, what the staking pallet has reserved less what it has had released. */
module Currency {
  import opened Primitives

  datatype Account = Account(free: nat, reserved: nat)

  datatype Ledger = Ledger(accounts: map<AccountId, Account>, issuance: nat, held: map<AccountId, int>)

  function Free(l: Ledger, a: AccountId): nat {
    if a in l.accounts then l.accounts[a].free else 0
  }

  function Reserved(l: Ledger, a: AccountId): nat {
    if a in l.accounts then l.accounts[a].reserved else 0
  }

  function Held(l: Ledger, a: AccountId): int {
    if a in l.held then l.held[a] else 0
  }

  /** Whether `Reserve` succeeds: reserving nothing always does. */
  predicate CanReserve(l: Ledger, a: AccountId, v: nat) {
    v == 0 || (a in l.accounts && v <= l.accounts[a].free)
  }

  function Reserve(l: Ledger, a: AccountId, v: nat): (r: Ledger)
    requires CanReserve(l, a, v)
    ensures forall b :: Held(r, b) == Held(l, b) + if b == a then v else 0
    ensures forall b :: Reserved(r, b) == Reserved(l, b) + if b == a then v else 0
    ensures forall b :: Free(r, b) == Free(l, b) - if b == a then v else 0
    ensures r.issuance == l.issuance && r.accounts.Keys == l.accounts.Keys
  {
    if v == 0 then l else
      var was := l.accounts[a];
      l.(accounts := l.accounts[a := Account(was.free - v, was.reserved + v)],
         held := l.held[a := Held(l, a) + v])
  }

  /** What a release of `v` can actually give back. */
  function Releasable(l: Ledger, a: AccountId, v: int): (r: nat)
    ensures 0 <= v <= Reserved(l, a) ==> r == v
    ensures v <= 0 ==> r == 0
    ensures Reserved(l, a) <= v ==> r == Reserved(l, a)
  {
    if v <= 0 then 0 else if v <= Reserved(l, a) then v else Reserved(l, a)
  }

  /** Releases as much of `v` as is reserved; the caller is not told when that is less. */
  function Unreserve(l: Ledger, a: AccountId, v: int): (r: Ledger)
    ensures forall b :: Held(r, b) == Held(l, b) - if b == a then Releasable(l, a, v) else 0
    ensures forall b :: Reserved(r, b) == Reserved(l, b) - if b == a then Releasable(l, a, v) else 0
    ensures forall b :: Free(r, b) == Free(l, b) + if b == a then Releasable(l, a, v) else 0
    ensures r.issuance == l.issuance && r.accounts.Keys == l.accounts.Keys
  {
    var back := Releasable(l, a, v);
    if back == 0 then l else
      var was := l.accounts[a];
      l.(accounts := l.accounts[a := Account(was.free + back, was.reserved - back)],
         held := l.held[a := Held(l, a) - back])
  }

  /** Mints into an account that exists; there is no effect on one that does not. */
  function DepositIntoExisting(l: Ledger, a: AccountId, v: nat): (r: Ledger)
    ensures r.held == l.held && r.accounts.Keys == l.accounts.Keys
    ensures forall b :: Reserved(r, b) == Reserved(l, b)
    ensures forall b :: Free(r, b) == Free(l, b) + if b == a && a in l.accounts then v else 0
    ensures r.issuance == l.issuance + if a in l.accounts then v else 0
  {
    if a !in l.accounts then l else
      var was := l.accounts[a];
      l.(accounts := l.accounts[a := Account(was.free + v, was.reserved)], issuance := l.issuance + v)
  }

  /** What the rest of the runtime may do between two calls of the staking pallet: anything to free
      balances, issuance, other reserves and the set of accounts, as long as it leaves in place
      what the staking pallet holds. */
  ghost predicate OthersActed(l: Ledger, r: Ledger) {
    && r.held == l.held
    && forall a :: Held(l, a) <= Reserved(l, a) ==> Held(l, a) <= Reserved(r, a)
  }
}
