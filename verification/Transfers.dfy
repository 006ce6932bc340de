/** What a transfer does to the balances. The debit goes by position and leaves the sender's
    total alone; the credit goes by asset and raises both of the receiver's balances. */
module Transfers {
  import opened Orders
  import opened Balances

  /** The sender has an entry of the asset, and its first one holds the amount. */
  predicate Sendable(accounts: Accounts, a: Account, x: Asset, n: nat) {
    && (exists i :: 0 <= i < |Entries(accounts, a)| && Entries(accounts, a)[i].asset == x)
    && Available(accounts, a, x) >= n
  }

  /** The entry at the position of the asset's number exists and holds the amount. */
  predicate Debitable(accounts: Accounts, a: Account, x: Asset, n: nat) {
    x < |Entries(accounts, a)| && Entries(accounts, a)[x].available >= n
  }

  function DebitAt(bs: seq<TokenBalance>, i: nat, n: nat): seq<TokenBalance>
    requires i < |bs|
  {
    bs[i := bs[i].(available := bs[i].available - n)]
  }

  function Debited(accounts: Accounts, a: Account, x: Asset, n: nat): Accounts
    requires x < |Entries(accounts, a)|
  {
    accounts[a := DebitAt(Entries(accounts, a), x, n)]
  }

  function Transferred(accounts: Accounts, a: Account, b: Account, x: Asset, n: nat): Accounts
    requires x < |Entries(accounts, a)|
  {
    Apply(Debited(accounts, a, x, n), Delta(b, x, n, n))
  }

  /** The entry at this position is the one that a lookup of the asset finds. */
  predicate IsEntry(bs: seq<TokenBalance>, i: nat, y: Asset)
    requires i < |bs|
  {
    bs[i].asset == y && forall j :: 0 <= j < i ==> bs[j].asset != y
  }

  /** A debit lowers at most one asset's spendable balance, not below zero, and no total. */
  lemma {:induction false} DebitLookup(bs: seq<TokenBalance>, i: nat, n: nat, y: Asset)
    requires i < |bs| && n <= bs[i].available
    ensures Lookup(DebitAt(bs, i, n), y).total == Lookup(bs, y).total
    ensures Lookup(DebitAt(bs, i, n), y).available <= Lookup(bs, y).available
    ensures 0 <= Lookup(bs, y).available ==> 0 <= Lookup(DebitAt(bs, i, n), y).available
    ensures Lookup(DebitAt(bs, i, n), y).available == Lookup(bs, y).available - if IsEntry(bs, i, y) then n else 0
  {
    var after := DebitAt(bs, i, n);
    if i == 0 {
      assert after[1..] == bs[1..];
    } else {
      assert after[0] == bs[0] && after[1..] == DebitAt(bs[1..], i - 1, n);
      DebitLookup(bs[1..], i - 1, n, y);
      assert forall j :: 0 <= j < i - 1 ==> bs[1..][j] == bs[j + 1];
    }
  }

  /** Exactly which balances a transfer changes: the debit hits whatever asset has its entry at the
      position of the sent asset's number, in the available balance alone; the credit raises both
      of the receiver's balances of the sent asset. */
  lemma {:induction false} TransferBalances(
      accounts: Accounts, a: Account, b: Account, x: Asset, n: nat, c: Account, y: Asset)
    requires Debitable(accounts, a, x, n)
    ensures var after := Transferred(accounts, a, b, x, n);
      && Available(after, c, y) == Available(accounts, c, y) + (if c == b && y == x then n else 0)
         - (if c == a && IsEntry(Entries(accounts, a), x, y) then n else 0)
      && Total(after, c, y) == Total(accounts, c, y) + if c == b && y == x then n else 0
  {
    DebitLookup(Entries(accounts, a), x, n, y);
    ApplyEffect(Debited(accounts, a, x, n), Delta(b, x, n, n), c, y);
  }

  /** A transfer keeps every resting order covered ... */
  lemma {:induction false} TransferCovers(
      accounts: Accounts, a: Account, b: Account, x: Asset, n: nat, ps: seq<Pledge>)
    requires Covers(accounts, ps) && Debitable(accounts, a, x, n)
    ensures Covers(Transferred(accounts, a, b, x, n), ps) == true
  {
    var mid := Debited(accounts, a, x, n);
    forall c, y ensures CoversAt(Transferred(accounts, a, b, x, n), ps, c, y) {
      assert CoversAt(accounts, ps, c, y);
      DebitLookup(Entries(accounts, a), x, n, y);
      ApplyEffect(mid, Delta(b, x, n, n), c, y);
    }
  }

  lemma {:induction false} SupplyEntry(accounts: Accounts, a: Account, bs: seq<TokenBalance>, y: Asset)
    requires Lookup(bs, y).total == Lookup(Entries(accounts, a), y).total
    ensures Supply(accounts[a := bs], y) == Supply(accounts, y)
  {
    var after := accounts[a := bs];
    SupplyWithout(after, a, y);
    assert after - {a} == accounts - {a};
    if a in accounts {
      SupplyWithout(accounts, a, y);
    } else {
      assert accounts - {a} == accounts;
    }
  }

  /** ... but adds its amount to the supply of the asset ... */
  lemma {:induction false} TransferMints(accounts: Accounts, a: Account, b: Account, x: Asset, n: nat, y: Asset)
    requires Debitable(accounts, a, x, n)
    ensures Supply(Transferred(accounts, a, b, x, n), y) == Supply(accounts, y) + if y == x then n else 0
  {
    DebitLookup(Entries(accounts, a), x, n, y);
    SupplyEntry(accounts, a, DebitAt(Entries(accounts, a), x, n), y);
    SupplyApply(Debited(accounts, a, x, n), Delta(b, x, n, n), y);
  }

  /** ... and leaves that amount locked with the sender for good, when the entry it debits is
      the asset's own. */
  lemma {:induction false} TransferStrands(accounts: Accounts, a: Account, b: Account, x: Asset, n: nat)
    requires Debitable(accounts, a, x, n) && a != b && IsEntry(Entries(accounts, a), x, x)
    ensures var after := Transferred(accounts, a, b, x, n);
      && Available(after, a, x) == Available(accounts, a, x) - n && Total(after, a, x) == Total(accounts, a, x)
      && Available(after, b, x) == Available(accounts, b, x) + n && Total(after, b, x) == Total(accounts, b, x) + n
  {
    TransferBalances(accounts, a, b, x, n, a, x);
    TransferBalances(accounts, a, b, x, n, b, x);
  }
}
