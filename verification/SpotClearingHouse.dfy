/** The clearing house object: balances and markets updated in place. */
module SpotClearingHouses {
  import opened LotMath
  import opened Orders
  import opened Matching
  import opened SpotMarkets
  import opened Balances
  import opened Settlement
  import opened ClearingHouse

  ghost function States(ms: seq<SpotMarket>): (r: seq<Market>)
    reads ms
    ensures |r| == |ms|
    ensures forall i :: 0 <= i < |ms| ==> r[i] == ms[i].State()
  {
    if ms == [] then [] else [ms[0].State()] + States(ms[1..])
  }

  /** Only market `k` changed. */
  lemma {:induction false} OneChanged(before: seq<Market>, after: seq<Market>, k: nat)
    requires k < |before| == |after| && forall i :: 0 <= i < |before| && i != k ==> after[i] == before[i]
    ensures after == before[k := after[k]]
  {
  }

  lemma {:induction false} DoneDeltasAppend(mk: Market, dir: Direction, a: seq<LimitOrder>, b: seq<LimitOrder>)
    ensures DoneDeltas(mk, dir, a + b) == DoneDeltas(mk, dir, a) + DoneDeltas(mk, dir, b)
  {
    if a == [] {
      assert a + b == b;
    } else {
      assert (a + b)[1..] == a[1..] + b;
      DoneDeltasAppend(mk, dir, a[1..], b);
    }
  }

  lemma {:induction false} DoneDeltasOne(mk: Market, dir: Direction, filled: seq<LimitOrder>, i: nat)
    requires i < |filled|
    ensures DoneDeltas(mk, dir, filled[..i + 1])
         == DoneDeltas(mk, dir, filled[..i])
            + if Dead(filled[i]) then [] else MakerDeltas(mk, dir, filled[i].account, SettledLots(filled[i]),
                filled[i].price)
  {
    var o := filled[i];
    assert filled[..i + 1] == filled[..i] + [o];
    DoneDeltasAppend(mk, dir, filled[..i], [o]);
    assert [o][1..] == [];
    var ds := MakerDeltas(mk, dir, o.account, SettledLots(o), o.price);
    assert DoneDeltas(mk, dir, [o]) == if Dead(o) then DoneDeltas(mk, dir, []) else ds + DoneDeltas(mk, dir, []);
  }

  lemma {:induction false} LimitAccepted(h: House, o: LimitOrder, h': House, out: Outcome)
    requires o.market < |h.markets| && o.filled == 0 && o.selfFilled == 0 && |h'.markets| == |h.markets|
      && out != Refused
    requires LockOf(h.markets[o.market], o) <= Available(h.accounts, o.account, OutAsset(h.markets[o.market], o.dir))
    requires h'.markets == h.markets[o.market := h'.markets[o.market]]
    requires LimitNext(h.markets[o.market], o, h'.markets[o.market], ReportOf(out)) == true
    requires h'.accounts == ApplyAll(h.accounts, LimitDeltas(h.markets[o.market], o, ReportOf(out)))
    ensures LimitStep(h, o, h', out) == true
  {
  }

  lemma {:induction false} MarketAccepted(h: House, m: nat, dir: Direction, size: nat, a: Account, h': House, r: Report)
    requires m < |h.markets| && |h'.markets| == |h.markets| && (dir == Buy ==> Priced(h.markets[m].asks))
    requires NeedOf(h.markets[m], dir, size) <= Available(h.accounts, a, OutAsset(h.markets[m], dir))
    requires h'.markets == h.markets[m := h'.markets[m]]
    requires MarketNext(h.markets[m], dir, MarketFills(h.markets[m], dir, size, a), h'.markets[m], r) == true
    requires h'.accounts == ApplyAll(h.accounts, MarketDeltas(h.markets[m], dir, size, a, r))
    ensures MarketStep(h, m, dir, size, a, h', Executed(r)) == true
  {
  }

  lemma {:induction false} LockThenSettle(accounts: Accounts, d: Delta, ds: seq<Delta>)
    ensures ApplyAll(Apply(accounts, d), ds) == ApplyAll(accounts, [d] + ds)
  {
    ApplyOne(accounts, d);
    ApplyAppend(accounts, [d], ds);
  }

  lemma {:induction false} CancelReached(h: House, o: LimitOrder, p: MarketPrecision, h': House, unfilled: nat)
    requires o.market < |h.markets| == |h'.markets| && h'.markets == h.markets[o.market := h'.markets[o.market]]
    requires CancelNext(h.markets[o.market], o, h'.markets[o.market], unfilled) == true
    requires h'.accounts == Apply(h.accounts, CancelDelta(h.markets[o.market], o, unfilled, p))
    ensures CancelStep(h, o, p, h', true, unfilled) == true
  {
  }

  // ---------- settlement ----------

  /** Pay one maker out of its locked funds. */
  method PayMaker(accounts: Accounts, mk: Market, dir: Direction, a: Account, lots: nat, price: nat)
    returns (r: Accounts)
    ensures r == ApplyAll(accounts, MakerDeltas(mk, dir, a, lots, price))
  {
    var ds := MakerDeltas(mk, dir, a, lots, price);
    ApplyPair(accounts, ds[0], ds[1]);
    assert ds == [ds[0], ds[1]];
    r := Apply(accounts, ds[0]);
    r := Apply(r, ds[1]);
  }

  /** Settle the completely matched makers one after the other. */
  method PayDone(accounts: Accounts, mk: Market, dir: Direction, filled: seq<LimitOrder>) returns (r: Accounts)
    ensures r == ApplyAll(accounts, DoneDeltas(mk, dir, filled))
  {
    r := accounts;
    for i := 0 to |filled|
      invariant r == ApplyAll(accounts, DoneDeltas(mk, dir, filled[..i]))
    {
      var o := filled[i];
      DoneDeltasOne(mk, dir, filled, i);
      ghost var before := DoneDeltas(mk, dir, filled[..i]);
      if Dead(o) {
        assert before + [] == before;
        continue;
      }
      ApplyAppend(accounts, before, MakerDeltas(mk, dir, o.account, SettledLots(o), o.price));
      r := PayMaker(r, mk, dir, o.account, SettledLots(o), o.price);
    }
    assert filled[..|filled|] == filled;
  }

  /** Release the lock, let the taker pay, then settle the makers and the residual. */
  method Settle(accounts: Accounts, mk: Market, dir: Direction, a: Account, lock: nat, report: Report)
    returns (r: Accounts)
    ensures r == ApplyAll(accounts, SettleDeltas(mk, dir, a, lock, report))
  {
    var t := TakerDeltas(mk, dir, a, lock, report.tally);
    ghost var d, e := DoneDeltas(mk, Opposite(dir), report.filled), ResidualDeltas(mk, Opposite(dir), report.residual);
    ApplyPair(accounts, t[0], t[1]);
    assert t == [t[0], t[1]];
    r := Apply(accounts, t[0]);
    r := Apply(r, t[1]);
    ApplyAppend(accounts, t, d);
    r := PayDone(r, mk, Opposite(dir), report.filled);
    ApplyAppend(accounts, t + d, e);
    if report.residual != None {
      r := PayMaker(r, mk, Opposite(dir), report.residual.value.account, report.residual.value.filled,
          report.residual.value.price);
    }
  }

  /** Lock the funds of a limit order and settle what was matched. The match in between does
      not look at balances. */
  method SettleLimit(accounts: Accounts, mk: Market, o: LimitOrder, report: Option<Report>) returns (r: Accounts)
    ensures r == ApplyAll(accounts, LimitDeltas(mk, o, report))
  {
    r := Apply(accounts, LockDelta(mk, o));
    if report == None {
      ApplyOne(accounts, LockDelta(mk, o));
    } else {
      LockThenSettle(accounts, LockDelta(mk, o), SettleDeltas(mk, o.dir, o.account, LockOf(mk, o), report.value));
      r := Settle(r, mk, o.dir, o.account, LockOf(mk, o), report.value);
    }
  }

  method SettleMarket(accounts: Accounts, mk: Market, dir: Direction, size: nat, a: Account, report: Report)
    returns (r: Accounts)
    ensures r == ApplyAll(accounts, MarketDeltas(mk, dir, size, a, report))
  {
    r := Apply(accounts, NeedDelta(mk, dir, size, a));
    LockThenSettle(accounts, NeedDelta(mk, dir, size, a), SettleDeltas(mk, dir, a, NeedOf(mk, dir, size), report));
    r := Settle(r, mk, dir, a, NeedOf(mk, dir, size), report);
  }

  // ---------- the clearing house object ----------

  class SpotClearingHouse {
    var accounts: Accounts
    var markets: seq<SpotMarket>

    /** The markets are separate objects. */
    ghost predicate Distinct()
      reads this`markets
    {
      forall i, j :: 0 <= i < j < |markets| ==> markets[i] != markets[j]
    }

    ghost function State(): House
      reads this, markets
    {
      House(accounts, States(markets))
    }

    constructor (accounts: Accounts)
      ensures this.accounts == accounts && markets == [] && Distinct()
    {
      this.accounts, markets := accounts, [];
    }

    /** Lock the funds of a limit order, match it and settle what was matched. */
    method PlaceLimit(o: LimitOrder) returns (out: Outcome)
      requires Distinct() && o.filled == 0 && o.selfFilled == 0
      requires o.market < |markets| ==>
        MarketOk(markets[o.market].State()) == true && NewOrder(markets[o.market].State(), o) == true
      modifies this`accounts, markets
      ensures LimitStep(old(State()), o, State(), out) == true
      ensures Distinct() && markets == old(markets)
    {
      if o.market >= |markets| {
        accounts := Touch(accounts, o.account);
        return Refused;
      }
      var mk := markets[o.market].State();
      if Available(accounts, o.account, OutAsset(mk, o.dir)) < LockOf(mk, o) {
        accounts := Apply(accounts, Delta(o.account, OutAsset(mk, o.dir), 0, 0));
        return Refused;
      }
      ghost var h := State();
      var r := LockAndMatch(o);
      out := if r == None then Resting else Executed(r.value);
      LimitAccepted(h, o, State(), out);
    }

    /** The funded case of a limit order. */
    method LockAndMatch(o: LimitOrder) returns (r: Option<Report>)
      requires Distinct() && o.market < |markets|
      requires MarketOk(markets[o.market].State()) == true && NewOrder(markets[o.market].State(), o) == true
      modifies this`accounts, markets
      ensures Distinct() && markets == old(markets)
      ensures States(markets) == old(States(markets))[o.market := markets[o.market].State()]
      ensures LimitNext(old(markets[o.market].State()), o, markets[o.market].State(), r) == true
      ensures accounts == ApplyAll(old(accounts), LimitDeltas(old(markets[o.market].State()), o, r))
    {
      var mk := markets[o.market].State();
      r := MatchInMarket(o);
      ghost var after := States(markets);
      accounts := SettleLimit(accounts, mk, o, r);
      assert forall i :: 0 <= i < |markets| ==> markets[i].State() == after[i];
      assert States(markets) == after;
    }

    /** The market takes the order; the other markets stand. */
    method MatchInMarket(o: LimitOrder) returns (r: Option<Report>)
      requires Distinct() && o.market < |markets|
      requires MarketOk(markets[o.market].State()) == true && NewOrder(markets[o.market].State(), o) == true
      modifies markets
      ensures States(markets) == old(States(markets))[o.market := markets[o.market].State()]
      ensures LimitNext(old(markets[o.market].State()), o, markets[o.market].State(), r) == true
    {
      r := markets[o.market].AddLimitOrder(o);
      OneChanged(old(States(markets)), States(markets), o.market);
    }

    /** Lock the funds of a market order, match it and settle it. A market buy must be
        funded: the program does not turn an unfunded one away. */
    method PlaceMarket(m: nat, dir: Direction, size: nat, a: Account) returns (out: Outcome)
      requires Distinct()
      requires m < |markets| ==> MarketOk(markets[m].State()) == true
      requires m < |markets| ==> BuyDefined(accounts, markets[m].State(), dir, size, a) == true
      modifies this`accounts, markets
      ensures MarketStep(old(State()), m, dir, size, a, State(), out) == true
      ensures Distinct() && markets == old(markets)
    {
      if m >= |markets| {
        accounts := Touch(accounts, a);
        return Refused;
      }
      var mk := markets[m].State();
      if dir == Sell && Available(accounts, a, OutAsset(mk, dir)) < NeedOf(mk, dir, size) {
        accounts := Apply(accounts, Delta(a, OutAsset(mk, dir), 0, 0));
        return Refused;
      }
      ghost var h := State();
      ghost var mk';
      var r;
      r, mk' := LockAndSweep(m, dir, size, a, mk);
      MarketAccepted(h, m, dir, size, a, State(), r);
      return Executed(r);
    }

    /** The funded case of a market order. */
    method LockAndSweep(m: nat, dir: Direction, size: nat, a: Account, mk: Market)
      returns (r: Report, ghost mk': Market)
      requires Distinct() && m < |markets| && mk == markets[m].State() && MarketOk(mk) == true
        && (dir == Buy ==> Priced(mk.asks) == true)
      modifies this`accounts, markets
      ensures Distinct() && markets == old(markets)
      ensures States(markets) == old(States(markets))[m := mk']
      ensures MarketNext(mk, dir, MarketFills(mk, dir, size, a), mk', r) == true
      ensures accounts == ApplyAll(old(accounts), MarketDeltas(mk, dir, size, a, r))
    {
      r, mk' := SweepMarket(m, dir, size, a, mk);
      Book(mk, dir, size, a, r);
    }

    /** Lock and settlement of a market order in one go. */
    method Book(mk: Market, dir: Direction, size: nat, a: Account, r: Report)
      modifies this`accounts
      ensures accounts == ApplyAll(old(accounts), MarketDeltas(mk, dir, size, a, r))
      ensures States(markets) == old(States(markets))
    {
      ghost var before := States(markets);
      accounts := SettleMarket(accounts, mk, dir, size, a, r);
      assert forall i :: 0 <= i < |markets| ==> markets[i].State() == before[i];
      assert States(markets) == before;
    }

    /** The market matches; the other markets stand. */
    method SweepMarket(m: nat, dir: Direction, size: nat, a: Account, ghost mk: Market)
      returns (r: Report, ghost mk': Market)
      requires Distinct() && m < |markets| && mk == markets[m].State() && MarketOk(mk) == true
        && (dir == Buy ==> Priced(mk.asks) == true)
      modifies markets
      ensures States(markets) == old(States(markets))[m := mk']
      ensures MarketNext(mk, dir, MarketFills(mk, dir, size, a), mk', r) == true
    {
      r := markets[m].HandleMarketOrder(dir, size, a);
      mk' := markets[m].State();
      OneChanged(old(States(markets)), States(markets), m);
    }

    /** Cancel a resting order and hand its unfilled value back. */
    method CancelOrder(o: LimitOrder, p: MarketPrecision) returns (ok: bool, unfilled: nat)
      requires Distinct()
      requires o.market < |markets| ==>
        MarketOk(markets[o.market].State()) == true && Withdrawable(markets[o.market].State(), o) == true
      modifies this`accounts, markets
      ensures CancelStep(old(State()), o, p, State(), ok, unfilled) == true
      ensures Distinct() && markets == old(markets)
    {
      if o.market >= |markets| {
        accounts := Touch(accounts, o.account);
        return false, 0;
      }
      var mk := markets[o.market].State();
      ghost var h := State();
      unfilled := CancelInMarket(o);
      ghost var ms := States(markets);
      accounts := Apply(accounts, CancelDelta(mk, o, unfilled, p));
      assert forall i :: 0 <= i < |markets| ==> markets[i].State() == ms[i];
      assert States(markets) == ms;
      ok := true;
      CancelReached(h, o, p, State(), unfilled);
    }

    /** The market drops the order; the other markets stand. */
    method CancelInMarket(o: LimitOrder) returns (unfilled: nat)
      requires Distinct() && o.market < |markets|
      requires MarketOk(markets[o.market].State()) == true && Withdrawable(markets[o.market].State(), o) == true
      modifies markets
      ensures States(markets) == old(States(markets))[o.market := markets[o.market].State()]
      ensures CancelNext(old(markets[o.market].State()), o, markets[o.market].State(), unfilled) == true
    {
      unfilled := markets[o.market].Cancel(o);
      OneChanged(old(States(markets)), States(markets), o.market);
    }
  }
}
