/** Token balances of accounts, changed by sequences of deltas. */
module Balances {
  import opened Orders

  /** `available` may be spent; the difference to `total` is locked by resting orders. */
  datatype TokenBalance = TokenBalance(asset: Asset, available: int, total: int)

  type Accounts = map<Account, seq<TokenBalance>>

  /** First entry of the asset; a missing entry counts as zero. */
  function Lookup(bs: seq<TokenBalance>, x: Asset): TokenBalance {
    if bs == [] then TokenBalance(x, 0, 0)
    else if bs[0].asset == x then bs[0]
    else Lookup(bs[1..], x)
  }

  /** Change the first entry of the asset, appending one if there is none. */
  function Update(bs: seq<TokenBalance>, x: Asset, available: int, total: int): seq<TokenBalance> {
    if bs == [] then [TokenBalance(x, available, total)]
    else if bs[0].asset == x then [TokenBalance(x, bs[0].available + available, bs[0].total + total)] + bs[1..]
    else [bs[0]] + Update(bs[1..], x, available, total)
  }

  function Entries(accounts: Accounts, a: Account): seq<TokenBalance> {
    if a in accounts then accounts[a] else []
  }

  function Available(accounts: Accounts, a: Account, x: Asset): int { Lookup(Entries(accounts, a), x).available }

  function Total(accounts: Accounts, a: Account, x: Asset): int { Lookup(Entries(accounts, a), x).total }

  datatype Delta = Delta(account: Account, asset: Asset, available: int, total: int)

  function Apply(accounts: Accounts, d: Delta): Accounts {
    accounts[d.account := Update(Entries(accounts, d.account), d.asset, d.available, d.total)]
  }

  function ApplyAll(accounts: Accounts, ds: seq<Delta>): Accounts
    decreases |ds|
  {
    if ds == [] then accounts else ApplyAll(Apply(accounts, ds[0]), ds[1..])
  }

  /** No balance is negative: the program's unsigned balances have not underflowed. */
  ghost predicate NonNegative(accounts: Accounts) {
    forall a, x :: NonNegativeAt(accounts, a, x)
  }

  ghost predicate NonNegativeAt(accounts: Accounts, a: Account, x: Asset) {
    Available(accounts, a, x) >= 0 && Total(accounts, a, x) >= 0
  }

  /** No step of the sequence underflows. */
  ghost predicate Safe(accounts: Accounts, ds: seq<Delta>)
    decreases |ds|
  {
    NonNegative(accounts) && (ds != [] ==> Safe(Apply(accounts, ds[0]), ds[1..]))
  }

  lemma {:induction false} UpdateLookup(bs: seq<TokenBalance>, x: Asset, available: int, total: int, y: Asset)
    ensures Lookup(Update(bs, x, available, total), y)
         == if x == y then TokenBalance(x, Lookup(bs, x).available + available, Lookup(bs, x).total + total)
            else Lookup(bs, y)
  {
    if bs != [] && bs[0].asset != x {
      UpdateLookup(bs[1..], x, available, total, y);
    }
  }

  /** A delta changes exactly the balance it names. */
  lemma {:induction false} ApplyEffect(accounts: Accounts, d: Delta, a: Account, x: Asset)
    ensures Available(Apply(accounts, d), a, x)
         == Available(accounts, a, x) + if a == d.account && x == d.asset then d.available else 0
    ensures Total(Apply(accounts, d), a, x)
         == Total(accounts, a, x) + if a == d.account && x == d.asset then d.total else 0
  {
    UpdateLookup(Entries(accounts, d.account), d.asset, d.available, d.total, x);
  }

  lemma {:induction false} ApplyAppend(accounts: Accounts, a: seq<Delta>, b: seq<Delta>)
    ensures ApplyAll(accounts, a + b) == ApplyAll(ApplyAll(accounts, a), b)
    decreases |a|
  {
    if a == [] {
      assert a + b == b;
    } else {
      assert (a + b)[1..] == a[1..] + b;
      ApplyAppend(Apply(accounts, a[0]), a[1..], b);
    }
  }

  lemma {:induction false} SafeAppend(accounts: Accounts, a: seq<Delta>, b: seq<Delta>)
    requires Safe(accounts, a) && Safe(ApplyAll(accounts, a), b)
    ensures Safe(accounts, a + b)
    decreases |a|
  {
    if a == [] {
      assert a + b == b;
    } else {
      assert (a + b)[1..] == a[1..] + b;
      SafeAppend(Apply(accounts, a[0]), a[1..], b);
    }
  }

  lemma {:induction false} ApplyPair(accounts: Accounts, d: Delta, e: Delta)
    ensures ApplyAll(accounts, [d, e]) == Apply(Apply(accounts, d), e)
    ensures NonNegative(accounts) && NonNegative(Apply(accounts, d)) && NonNegative(Apply(Apply(accounts, d), e))
            ==> Safe(accounts, [d, e])
  {
    var mid := Apply(accounts, d);
    assert [d, e][1..] == [e] && [e][1..] == [];
    assert ApplyAll(mid, [e]) == ApplyAll(Apply(mid, e), []);
    assert Safe(mid, [e]) <==> NonNegative(mid) && Safe(Apply(mid, e), []);
  }

  lemma {:induction false} ApplyOne(accounts: Accounts, d: Delta)
    ensures ApplyAll(accounts, [d]) == Apply(accounts, d)
    ensures NonNegative(accounts) && NonNegative(Apply(accounts, d)) ==> Safe(accounts, [d])
  {
    assert [d][1..] == [];
    assert ApplyAll(accounts, [d]) == ApplyAll(Apply(accounts, d), []);
    assert Safe(accounts, [d]) <==> NonNegative(accounts) && Safe(Apply(accounts, d), []);
  }

  // ---------- supply ----------

  /** Sum of the total balances of an asset over all accounts. */
  ghost function Supply(accounts: Accounts, x: Asset): int {
    if accounts == map[] then 0
    else
      var a :| a in accounts;
      Lookup(accounts[a], x).total + Supply(accounts - {a}, x)
  }

  lemma {:induction false} SupplyWithout(accounts: Accounts, a: Account, x: Asset)
    requires a in accounts
    ensures Supply(accounts, x) == Lookup(accounts[a], x).total + Supply(accounts - {a}, x)
    decreases |accounts|
  {
    var b :| b in accounts && Supply(accounts, x) == Lookup(accounts[b], x).total + Supply(accounts - {b}, x);
    if a != b {
      SupplyWithout(accounts - {b}, a, x);
      SupplyWithout(accounts - {a}, b, x);
      assert accounts - {b} - {a} == accounts - {a} - {b};
    }
  }

  lemma {:induction false} SupplyApply(accounts: Accounts, d: Delta, x: Asset)
    ensures Supply(Apply(accounts, d), x) == Supply(accounts, x) + if d.asset == x then d.total else 0
  {
    var after := Apply(accounts, d);
    SupplyWithout(after, d.account, x);
    assert after - {d.account} == accounts - {d.account};
    UpdateLookup(Entries(accounts, d.account), d.asset, d.available, d.total, x);
    if d.account in accounts {
      SupplyWithout(accounts, d.account, x);
    } else {
      assert accounts - {d.account} == accounts;
    }
  }

  /** Net change of an asset's supply. */
  function Net(ds: seq<Delta>, x: Asset): int {
    if ds == [] then 0 else (if ds[0].asset == x then ds[0].total else 0) + Net(ds[1..], x)
  }

  lemma {:induction false} NetPair(d: Delta, e: Delta, x: Asset)
    ensures Net([d, e], x) == (if d.asset == x then d.total else 0) + (if e.asset == x then e.total else 0)
  {
    assert [d, e][1..] == [e] && [e][1..] == [];
    assert Net([e], x) == (if e.asset == x then e.total else 0) + Net([], x);
  }

  lemma {:induction false} NetAppend(a: seq<Delta>, b: seq<Delta>, x: Asset)
    ensures Net(a + b, x) == Net(a, x) + Net(b, x)
  {
    if a == [] {
      assert a + b == b;
    } else {
      assert (a + b)[1..] == a[1..] + b;
      NetAppend(a[1..], b, x);
    }
  }

  lemma {:induction false} SupplyApplyAll(accounts: Accounts, ds: seq<Delta>, x: Asset)
    ensures Supply(ApplyAll(accounts, ds), x) == Supply(accounts, x) + Net(ds, x)
    decreases |ds|
  {
    if ds != [] {
      SupplyApply(accounts, ds[0], x);
      SupplyApplyAll(Apply(accounts, ds[0]), ds[1..], x);
    }
  }

  // ---------- pledges ----------

  /** An amount an account could take back by cancelling one of its resting orders. */
  datatype Pledge = Pledge(account: Account, asset: Asset, amount: nat)

  function Claim(ps: seq<Pledge>, a: Account, x: Asset): nat {
    if ps == [] then 0
    else (if ps[0].account == a && ps[0].asset == x then ps[0].amount else 0) + Claim(ps[1..], a, x)
  }

  lemma {:induction false} ClaimAppend(ps: seq<Pledge>, qs: seq<Pledge>, a: Account, x: Asset)
    ensures Claim(ps + qs, a, x) == Claim(ps, a, x) + Claim(qs, a, x)
  {
    if ps == [] {
      assert ps + qs == qs;
    } else {
      assert (ps + qs)[1..] == ps[1..] + qs;
      ClaimAppend(ps[1..], qs, a, x);
    }
  }

  /** What is locked covers what the resting orders would hand back. */
  ghost predicate Covers(accounts: Accounts, ps: seq<Pledge>) {
    forall a, x :: CoversAt(accounts, ps, a, x)
  }

  ghost predicate CoversAt(accounts: Accounts, ps: seq<Pledge>, a: Account, x: Asset) {
    Available(accounts, a, x) >= 0 && Available(accounts, a, x) + Claim(ps, a, x) <= Total(accounts, a, x)
  }

  lemma {:induction false} CoversNonNegative(accounts: Accounts, ps: seq<Pledge>)
    requires Covers(accounts, ps)
    ensures NonNegative(accounts)
  {
    forall a, x ensures NonNegativeAt(accounts, a, x) {
      assert CoversAt(accounts, ps, a, x);
    }
  }
}
