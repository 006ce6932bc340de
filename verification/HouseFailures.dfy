/** Runs of the clearing house, from an empty market, that end insolvent or change a supply. */
module HouseFailures {
  import opened LotMath
  import opened Orders
  import opened BookEdits
  import opened Sweeps
  import opened Matching
  import opened SpotMarkets
  import opened Balances
  import opened Settlement
  import opened ClearingHouse
  import opened Solvency
  import opened HouseRuns
  import opened SpotClearingHouses
  import opened BookFailures

  // ---------- one resting order ----------

  /** The market holds this order and nothing else. */
  ghost predicate Alone(m: Market, o: LimitOrder) {
    && MarketOk(m) && m.base != m.quote && Side(m, Opposite(o.dir)) == []
    && Flatten(Side(m, o.dir)) == [o]
    && Side(m, o.dir) != [] && Top(Side(m, o.dir)).price == o.price
  }

  ghost predicate Unused(m: Market) { m.bids == [] && m.asks == [] && m.base != m.quote }

  /** No account has locked funds. */
  ghost predicate Unlocked(accounts: Accounts) {
    forall a, x :: 0 <= Available(accounts, a, x) && Locked(accounts, a, x) == 0
  }

  /** Markets without orders and balances without locks. */
  ghost predicate Opening(h: House) {
    Unlocked(h.accounts) && forall k :: 0 <= k < |h.markets| ==> Unused(h.markets[k])
  }

  lemma {:induction false} NoPledges(markets: seq<Market>)
    requires forall k :: 0 <= k < |markets| ==> Unused(markets[k])
    ensures HousePledges(markets) == []
  {
    if markets != [] {
      assert forall k :: 0 <= k < |markets[1..]| ==> markets[1..][k] == markets[k + 1];
      NoPledges(markets[1..]);
      assert Pledges(markets[0], []) == [];
    }
  }

  lemma {:induction false} OpeningSolvent(h: House)
    requires Opening(h)
    ensures CleanHouse(h) == true && Solvent(h) == true
  {
    forall k | 0 <= k < |h.markets| ensures CleanMarket(h.markets[k]) {
      assert Unused(h.markets[k]);
    }
    NoPledges(h.markets);
    forall a, x ensures CoversAt(h.accounts, [], a, x) {
      assert 0 <= Available(h.accounts, a, x) && Locked(h.accounts, a, x) == 0;
    }
  }

  /** The house once a first, funded order came in. */
  ghost predicate FirstCame(h: House, o: LimitOrder, h': House) {
    && o.market < |h.markets| == |h'.markets| && Opening(h) && NewOrder(h.markets[o.market], o)
    && CleanHouse(h') && Solvent(h') && Alone(h'.markets[o.market], o)
    && SameMarket(h.markets[o.market], h'.markets[o.market])
    && h'.accounts == Apply(h.accounts, LockDelta(h.markets[o.market], o))
  }

  lemma {:induction false} FirstInMarket(m: Market, o: LimitOrder, m': Market, r: Option<Report>)
    requires Unused(m) && NewOrder(m, o) && LimitNext(m, o, m', r)
    ensures r == None && Alone(m', o) == true && SameMarket(m, m')
  {
    assert Flatten([]) == [] && Enqueue(o.dir, [], o) == [o] + [];
    LimitKeepsOk(m, o, m', None);
  }

  lemma {:induction false} FirstSolvent(h: House, o: LimitOrder, h': House, out: Outcome)
    requires Opening(h) && Funded(h, o) && NewOrder(h.markets[o.market], o) && LimitStep(h, o, h', out) == true
    ensures CleanHouse(h') == true && Solvent(h') == true
  {
    OpeningSolvent(h);
    assert Unused(h.markets[o.market]);
    LimitSolventIff(h, o, h', out);
    StepKeepsClean(h, PlaceLimit(o), h', Placed(out));
  }

  lemma {:induction false} FirstRests(h: House, o: LimitOrder, h': House, out: Outcome)
    requires Opening(h) && Funded(h, o) && NewOrder(h.markets[o.market], o) && LimitStep(h, o, h', out) == true
    ensures out == Resting && FirstCame(h, o, h') == true
  {
    FirstSolvent(h, o, h', out);
    FirstInMarket(h.markets[o.market], o, h'.markets[o.market], ReportOf(out));
    ApplyOne(h.accounts, LockDelta(h.markets[o.market], o));
  }

  /** Its lock is the only one. */
  lemma {:induction false} FirstLock(h: House, o: LimitOrder, h': House, a: Account, x: Asset)
    requires FirstCame(h, o, h')
    ensures Locked(h'.accounts, a, x)
         == if a == o.account && x == OutAsset(h.markets[o.market], o.dir) then LockOf(h.markets[o.market], o) else 0
    ensures a != o.account ==> Available(h'.accounts, a, x) == Available(h.accounts, a, x)
  {
    ApplyEffect(h.accounts, LockDelta(h.markets[o.market], o), a, x);
    assert Locked(h.accounts, a, x) == 0;
  }

  // ---------- a partial fill leaves its remainder without a lock ----------

  /** An order of another account at the price of `maker`. */
  ghost predicate Meets(maker: LimitOrder, taker: LimitOrder) {
    && taker.market == maker.market && taker.dir == Opposite(maker.dir) && taker.price == maker.price
    && taker.account != maker.account && taker.filled == 0 && taker.selfFilled == 0
  }

  /** It takes all of `maker` and rests the remainder. */
  ghost predicate Exceeds(maker: LimitOrder, taker: LimitOrder) { Meets(maker, taker) && maker.base < taker.base }

  lemma {:induction false} TakesAll(m: Market, maker: LimitOrder, taker: LimitOrder)
    requires Alone(m, maker) && maker.filled == 0 && maker.selfFilled == 0 && Meets(maker, taker) && taker.base > 0
    ensures Crosses(m, taker.dir, taker.price) && AllLots(TargetFills(m, taker)) == Min(taker.base, maker.base)
  {
    OppositeTwice(maker.dir);
    var list, lots := [maker], Min(taker.base, maker.base);
    assert list[1..] == [];
    assert TakeAcceptable(maker.dir, list, taker.price) == [maker] + TakeAcceptable(maker.dir, [], taker.price);
    var fills := [Fill(maker, lots, false)];
    assert Greedy(list, taker.base, None) == fills + Greedy([], taker.base - lots, None);
    assert fills[1..] == [];
    assert Lots(fills, false) == lots + Lots([], false) && Lots(fills, true) == Lots([], true);
  }

  lemma {:induction false} RemainderShort(h: House, maker: LimitOrder, h1: House, taker: LimitOrder)
    requires FirstCame(h, maker, h1) && Exceeds(maker, taker) && Funded(h1, taker)
    requires OutAmount(h.markets[maker.market].prec, taker.dir, taker.base - maker.base, taker.price) > 0
    ensures CleanHouse(h1) == true && Solvent(h1) == true && LimitEnough(h1, taker) == false
  {
    TakesAll(h1.markets[maker.market], maker, taker);
    FirstLock(h, maker, h1, taker.account, OutAsset(h.markets[maker.market], taker.dir));
  }

  /** From any opening balances: the house is insolvent after the second order, although both
      orders were funded, if the remainder is worth anything. */
  lemma {:induction false} RemainderUncovered(
      h: House, maker: LimitOrder, h1: House, taker: LimitOrder, h2: House, out: Outcome)
    requires maker.market < |h.markets| && FirstCame(h, maker, h1) == true && Exceeds(maker, taker)
      && Funded(h1, taker) == true
    requires LimitStep(h1, taker, h2, out) == true
    requires OutAmount(h.markets[maker.market].prec, taker.dir, taker.base - maker.base, taker.price) > 0
    ensures Solvent(h2) == false
  {
    RemainderShort(h, maker, h1, taker);
    LimitSolventIff(h1, taker, h2, out);
  }

  // ---------- a refund at other lot sizes ----------

  lemma {:induction false} ClaimAlone(markets: seq<Market>, o: LimitOrder)
    requires o.market < |markets| && Alone(markets[o.market], o)
    ensures Claim(HousePledges(markets), o.account, OutAsset(markets[o.market], o.dir))
         >= PledgeOf(markets[o.market], o).amount
  {
    var m := markets[o.market];
    var x := OutAsset(m, o.dir);
    assert [o][1..] == [];
    assert Pledges(m, [o]) == [PledgeOf(m, o)] + Pledges(m, []);
    assert [PledgeOf(m, o)][1..] == [];
    HouseClaim(markets, o.market, o.dir, o.account, x);
  }

  lemma {:induction false} FirstSlack(h: House, o: LimitOrder, h': House)
    requires FirstCame(h, o, h')
    ensures Slack(h', o.account, OutAsset(h'.markets[o.market], o.dir)) <= 0
    ensures PledgeOf(h'.markets[o.market], o).amount == LockOf(h.markets[o.market], o)
  {
    FirstLock(h, o, h', o.account, OutAsset(h.markets[o.market], o.dir));
    ClaimAlone(h'.markets, o);
  }

  lemma {:induction false} CopyOfAlone(m: Market, o: LimitOrder)
    requires Alone(m, o) && o.selfFilled == 0
    ensures Lists(Flatten(Side(m, o.dir)), o) == true && FullCopy(Flatten(Side(m, o.dir)), o) == true
    ensures Withdrawable(m, o) == true
  {
    assert o in [o];
    assert forall x :: x in [o] ==> x == o;
    ExactFits(m, o);
  }

  lemma {:induction false} RefundShort(h: House, o: LimitOrder, p: MarketPrecision, lock: nat)
    requires o.market < |h.markets| && o.filled == 0 && Lists(Flatten(Side(h.markets[o.market], o.dir)), o) == true
    requires Slack(h, o.account, OutAsset(h.markets[o.market], o.dir)) <= 0
      && PledgeOf(h.markets[o.market], o).amount == lock
    requires OutAmount(p, o.dir, o.base, o.price) > lock
    ensures CancelEnough(h, o, p) == false
  {
    EnoughIs(h, o, p);
  }

  lemma {:induction false} FirstClean(h: House, o: LimitOrder, h': House)
    requires FirstCame(h, o, h')
    ensures o.market < |h.markets| == |h'.markets| && o.filled == 0 && o.selfFilled == 0
    ensures CleanMarket(h'.markets[o.market]) == true && Solvent(h') == true && Alone(h'.markets[o.market], o) == true
  {
    assert CleanMarket(h'.markets[o.market]);
  }

  /** From any opening balances: cancelling a resting order at lot sizes that make it worth
      more than its lock leaves the house insolvent. */
  lemma {:induction false} RefundUncovered(
      h: House, o: LimitOrder, h1: House, p: MarketPrecision, h2: House, unfilled: nat)
    requires FirstCame(h, o, h1) == true && o.market < |h.markets|
    requires CancelStep(h1, o, p, h2, true, unfilled) == true
    requires OutAmount(p, o.dir, o.base, o.price) > LockOf(h.markets[o.market], o)
    ensures Solvent(h2) == false
  {
    FirstClean(h, o, h1);
    FirstSlack(h, o, h1);
    CopyOfAlone(h1.markets[o.market], o);
    RefundShort(h1, o, p, LockOf(h.markets[o.market], o));
    CancelSolventIff(h1, o, p, h2, unfilled);
  }

  // ---------- a self-filled order that completes changes the supply ----------

  lemma {:induction false} OneFill(o: LimitOrder, size: nat, taker: Account, lots: nat)
    requires size > 0 && lots == Min(size, Remaining(o)) && !Dead(o)
    ensures SellFills([o], size, taker) == [Fill(o, lots, taker == o.account)]
    ensures Leftover([o], [Fill(o, lots, taker == o.account)])
         == if lots == Remaining(o) then [] else [Touched(Fill(o, lots, taker == o.account))]
    ensures DoneOrders([Fill(o, lots, taker == o.account)])
         == if lots == Remaining(o) then [Done(Fill(o, lots, taker == o.account))] else []
  {
    var f := Fill(o, lots, taker == o.account);
    assert [o][1..] == [] && [f][1..] == [];
    assert Greedy([o], size, Some(taker)) == [f] + Greedy([], size - lots, Some(taker));
    assert DoneOrders([f]) == (if Full(f) then [Done(f)] else []) + DoneOrders([]);
  }

  ghost predicate OneBid(m: Market, o: LimitOrder) {
    MarketOk(m) && m.base != m.quote && Flatten(m.bids) == [o] && !Dead(o)
  }

  /** What a market sell takes off a single bid. */
  lemma {:induction false} SellOneBook(
      mk: Market, o: LimitOrder, size: nat, a: Account, mk': Market, r: Report, f: Fill)
    requires OneBid(mk, o) && size > 0 && f == Fill(o, Min(size, Remaining(o)), a == o.account)
    requires MarketNext(mk, Sell, MarketFills(mk, Sell, size, a), mk', r)
    ensures MarketFills(mk, Sell, size, a) == [f] && SameMarket(mk, mk')
    ensures !Full(f) ==> OneBid(mk', Touched(f)) == true
    ensures Live(r.filled) == DoneOrders([f]) && r.residual == ResidualOf([f]) && r.tally == TallyOf([f], mk.prec)
  {
    OneFill(o, size, a, f.lots);
    MarketKeepsOk(mk, Sell, [f], mk', r);
  }

  /** ... and what it adds to the base supply. */
  lemma {:induction false} SellOneMints(
      mk: Market, o: LimitOrder, size: nat, a: Account, r: Report, f: Fill, accounts: Accounts)
    requires mk.base != mk.quote && !Dead(o) && f == Fill(o, Min(size, Remaining(o)), a == o.account) && size > 0
    requires Live(r.filled) == DoneOrders([f]) && r.residual == ResidualOf([f]) && r.tally == TallyOf([f], mk.prec)
    ensures Supply(ApplyAll(accounts, MarketDeltas(mk, Sell, size, a, r)), mk.base)
         == Supply(accounts, mk.base) + if Full(f) then Scale(Done(f).selfFilled, mk.prec.baseLot) else 0
  {
    OneFill(o, size, a, f.lots);
    SellMints(mk, size, a, [f], r, accounts);
    assert SelfPart([]) == 0 && Scale(0, mk.prec.baseLot) == 0;
    assert [Done(f)][1..] == [];
    assert SelfPart([Done(f)]) == Done(f).selfFilled + SelfPart([]);
  }

  /** The markets and balances around an executed market sell. */
  lemma {:induction false} SellFacts(h: House, k: nat, size: nat, a: Account, h': House, r: Report)
    requires k < |h.markets| && MarketStep(h, k, Sell, size, a, h', Executed(r))
    ensures |h'.markets| == |h.markets|
    ensures MarketNext(h.markets[k], Sell, MarketFills(h.markets[k], Sell, size, a), h'.markets[k], r) == true
    ensures h'.accounts == ApplyAll(h.accounts, MarketDeltas(h.markets[k], Sell, size, a, r))
  {
  }

  lemma {:induction false} SellOne(
      h: House, k: nat, mk: Market, o: LimitOrder, size: nat, a: Account, h': House, r: Report, f: Fill)
    requires k < |h.markets| && mk == h.markets[k] && OneBid(mk, o) == true && !Dead(o) && mk.base != mk.quote
      && size > 0
    requires f == Fill(o, Min(size, Remaining(o)), a == o.account)
      && MarketStep(h, k, Sell, size, a, h', Executed(r)) == true
    ensures |h'.markets| == |h.markets| && SameMarket(mk, h'.markets[k])
    ensures !Full(f) ==> OneBid(h'.markets[k], Touched(f)) == true
    ensures Supply(h'.accounts, mk.base)
         == Supply(h.accounts, mk.base) + if Full(f) then Scale(Done(f).selfFilled, mk.prec.baseLot) else 0
  {
    SellFacts(h, k, size, a, h', r);
    SellOneBook(mk, o, size, a, h'.markets[k], r, f);
    SellOneMints(mk, o, size, a, r, f, h.accounts);
  }

  lemma {:induction false} SellMints(mk: Market, size: nat, a: Account, fills: seq<Fill>, r: Report, accounts: Accounts)
    requires mk.base != mk.quote && FullButLast(fills)
    requires Live(r.filled) == DoneOrders(fills) && (forall o :: o in DoneOrders(fills) ==> !Dead(o))
    requires r.residual == ResidualOf(fills) && r.tally == TallyOf(fills, mk.prec)
    ensures Supply(ApplyAll(accounts, MarketDeltas(mk, Sell, size, a, r)), mk.base)
         == Supply(accounts, mk.base) + Scale(SelfPart(DoneOrders(fills)), mk.prec.baseLot)
  {
    var d, ds := NeedDelta(mk, Sell, size, a), SettleDeltas(mk, Sell, a, NeedOf(mk, Sell, size), r);
    SettleMints(mk, Sell, a, NeedOf(mk, Sell, size), fills, r);
    SupplyApplyAll(accounts, [d] + ds, mk.base);
    NetAppend([d], ds, mk.base);
    assert [d][1..] == [];
  }

  lemma {:induction false} FirstBid(h: House, o: LimitOrder, h': House)
    requires FirstCame(h, o, h') && o.dir == Buy
    ensures o.market < |h.markets| == |h'.markets| && SameMarket(h.markets[o.market], h'.markets[o.market])
    ensures OneBid(h'.markets[o.market], o) == true && o.filled == 0 && o.selfFilled == 0
    ensures Supply(h'.accounts, h.markets[o.market].base) == Supply(h.accounts, h.markets[o.market].base)
    ensures h.markets[o.market].base != h.markets[o.market].quote && !Dead(o)
  {
    SupplyApply(h.accounts, LockDelta(h.markets[o.market], o), h.markets[o.market].base);
  }

  /** The owner sells into its own bid. */
  lemma {:induction false} SelfSale(h: House, k: nat, o: LimitOrder, own: nat, h': House, r: Report, mine: LimitOrder)
    requires k < |h.markets| && OneBid(h.markets[k], o) == true && h.markets[k].base != h.markets[k].quote && !Dead(o)
    requires o.filled == 0 && o.selfFilled == 0 && 0 < own < o.base && mine == o.(selfFilled := own)
    requires MarketStep(h, k, Sell, own, o.account, h', Executed(r)) == true
    ensures |h'.markets| == |h.markets| && SameMarket(h.markets[k], h'.markets[k])
    ensures OneBid(h'.markets[k], mine) == true
    ensures Supply(h'.accounts, h.markets[k].base) == Supply(h.accounts, h.markets[k].base)
  {
    var f := Fill(o, own, true);
    assert Touched(f) == mine && !Full(f);
    SellOne(h, k, h.markets[k], o, own, o.account, h', r, f);
  }

  /** Another account sells it the rest. */
  lemma {:induction false} LastSale(h: House, k: nat, mine: LimitOrder, size: nat, b: Account, h': House, r: Report)
    requires k < |h.markets| && OneBid(h.markets[k], mine) == true && h.markets[k].base != h.markets[k].quote
      && !Dead(mine)
    requires 0 < Remaining(mine) <= size && b != mine.account
    requires MarketStep(h, k, Sell, size, b, h', Executed(r)) == true
    ensures Supply(h'.accounts, h.markets[k].base)
         == Supply(h.accounts, h.markets[k].base) + Scale(mine.selfFilled, h.markets[k].prec.baseLot)
  {
    SellOne(h, k, h.markets[k], mine, size, b, h', r, Fill(mine, Remaining(mine), false));
  }

  /** From any opening balances: the owner of the first bid sells `own` lots to itself, another
      account sells the rest to it, and `own` base lots have come into being. */
  lemma {:induction false} SelfFillsMint(h: House, o: LimitOrder, h1: House, own: nat, h2: House, r2: Report,
      size: nat, b: Account, h3: House, r3: Report)
    requires FirstCame(h, o, h1) == true && o.market < |h.markets| == |h1.markets| == |h2.markets|
    requires o.dir == Buy && 0 < own < o.base && o.base - own <= size && b != o.account
    requires MarketStep(h1, o.market, Sell, own, o.account, h2, Executed(r2)) == true
    requires MarketStep(h2, o.market, Sell, size, b, h3, Executed(r3)) == true
    ensures Supply(h3.accounts, h.markets[o.market].base)
         == Supply(h.accounts, h.markets[o.market].base) + Scale(own, h.markets[o.market].prec.baseLot)
    ensures Scale(own, h.markets[o.market].prec.baseLot) > 0
  {
    FirstBid(h, o, h1);
    var mine := o.(selfFilled := own);
    SelfSale(h1, o.market, o, own, h2, r2, mine);
    LastSale(h2, o.market, mine, size, b, h3, r3);
    ScalePositive(own, h.markets[o.market].prec.baseLot);
  }

  // ---------- the runs ----------

  /** A house with these balances and one market without orders. */
  method OpenHouse(accounts: Accounts, prec: MarketPrecision) returns (house: SpotClearingHouse)
    requires Unlocked(accounts)
    ensures fresh(house) && fresh(house.markets) && house.Distinct()
    ensures house.State() == House(accounts, [Market(0, 1, prec, [], [], None)]) && Opening(house.State())
  {
    var market := new SpotMarket(0, 1, prec);
    house := new SpotClearingHouse(accounts);
    house.markets := [market];
    assert States([market]) == [Market(0, 1, prec, [], [], None)];
  }

  /** What the runs below ask of their first order. */
  ghost predicate Opens(accounts: Accounts, prec: MarketPrecision, o: LimitOrder) {
    && Unlocked(accounts) && o.market == 0 && o.status == Open && o.base > 0 && o.filled == 0 && o.selfFilled == 0
    && OutAmount(prec, o.dir, o.base, o.price) <= Available(accounts, o.account, if o.dir == Buy then 1 else 0)
  }

  /** Open the house and place a first order. */
  method OpenWith(accounts: Accounts, prec: MarketPrecision, o: LimitOrder)
    returns (house: SpotClearingHouse, ghost h: House)
    requires Opens(accounts, prec, o)
    ensures fresh(house) && fresh(house.markets) && house.Distinct() && |house.markets| == 1
    ensures h == House(accounts, [Market(0, 1, prec, [], [], None)]) && FirstCame(h, o, house.State()) == true
  {
    house := OpenHouse(accounts, prec);
    h := house.State();
    assert NewOrder(h.markets[0], o) && Funded(h, o);
    assert house.markets[0].State() == h.markets[0];
    var out := house.PlaceLimit(o);
    FirstRests(h, o, house.State(), out);
  }

  lemma {:induction false} MarketFromHouse(h: House, o: LimitOrder, h': House, m: Market)
    requires FirstCame(h, o, h') && m == h'.markets[o.market]
    ensures Alone(m, o) == true && MarketOk(m) == true && m.base == h.markets[o.market].base
    ensures o.selfFilled == 0 && Side(m, Opposite(o.dir)) == []
  {
  }

  /** The second order finds its funds where they were. */
  lemma {:induction false} SecondFunded(h: House, maker: LimitOrder, h1: House, taker: LimitOrder)
    requires FirstCame(h, maker, h1) && Meets(maker, taker)
    requires LockOf(h.markets[maker.market], taker)
          <= Available(h.accounts, taker.account, OutAsset(h.markets[maker.market], taker.dir))
    ensures Funded(h1, taker) == true
  {
    FirstLock(h, maker, h1, taker.account, OutAsset(h.markets[maker.market], taker.dir));
  }

  /** Two funded limit orders, the second larger than the first, leave the house insolvent. */
  method PartialRestRun(accounts: Accounts, prec: MarketPrecision, maker: LimitOrder, taker: LimitOrder)
    returns (house: SpotClearingHouse)
    requires Opens(accounts, prec, maker) && Opens(accounts, prec, taker) && Exceeds(maker, taker)
    requires OutAmount(prec, taker.dir, taker.base - maker.base, taker.price) > 0
    ensures fresh(house) && Solvent(house.State()) == false
  {
    ghost var h;
    house, h := OpenWith(accounts, prec, maker);
    ghost var h1 := house.State();
    SecondFunded(h, maker, h1, taker);
    MarketFromHouse(h, maker, h1, house.markets[0].State());
    var out := house.PlaceLimit(taker);
    RemainderUncovered(h, maker, h1, taker, house.State(), out);
  }

  /** A resting order, cancelled at lot sizes that make it worth more, leaves it insolvent too. */
  method WrongRefundRun(accounts: Accounts, prec: MarketPrecision, o: LimitOrder, other: MarketPrecision)
    returns (house: SpotClearingHouse)
    requires Opens(accounts, prec, o)
    requires OutAmount(other, o.dir, o.base, o.price) > OutAmount(prec, o.dir, o.base, o.price)
    ensures fresh(house) && Solvent(house.State()) == false
  {
    ghost var h;
    house, h := OpenWith(accounts, prec, o);
    ghost var h1 := house.State();
    MarketFromHouse(h, o, h1, house.markets[0].State());
    CopyOfAlone(house.markets[0].State(), o);
    var ok, unfilled := house.CancelOrder(o, other);
    RefundUncovered(h, o, h1, other, house.State(), unfilled);
  }

  /** A funded market sell goes through. */
  method PlaceSell(house: SpotClearingHouse, size: nat, a: Account, ghost h: House) returns (r: Report)
    requires house.Distinct() && |house.markets| == 1 && h == house.State() && MarketOk(h.markets[0]) == true
    requires Scale(size, h.markets[0].prec.baseLot) <= Available(h.accounts, a, h.markets[0].base)
    modifies house, house.markets
    ensures house.Distinct() && house.markets == old(house.markets)
    ensures MarketStep(h, 0, Sell, size, a, house.State(), Executed(r)) == true
  {
    assert house.markets[0].State() == h.markets[0];
    var out := house.PlaceMarket(0, Sell, size, a);
    r := out.report;
  }

  /** Open the house with a bid, part of which its owner sells to itself. */
  method OpenWithSelfSale(accounts: Accounts, prec: MarketPrecision, o: LimitOrder, own: nat)
    returns (house: SpotClearingHouse, r: Report, ghost h: House, ghost h1: House)
    requires Opens(accounts, prec, o) && o.dir == Buy && Scale(own, prec.baseLot) <= Available(accounts, o.account, 0)
    ensures fresh(house) && fresh(house.markets) && house.Distinct() && |house.markets| == 1
    ensures h == House(accounts, [Market(0, 1, prec, [], [], None)]) && FirstCame(h, o, h1) == true && |h1.markets| == 1
    ensures MarketStep(h1, 0, Sell, own, o.account, house.State(), Executed(r)) == true
  {
    house, h := OpenWith(accounts, prec, o);
    h1 := house.State();
    SelfSaleReady(h, o, h1);
    r := PlaceSell(house, own, o.account, h1);
  }

  /** The owner of a bid sells part of it to itself and another account sells it the rest:
      the self-traded base lots have come into being. */
  method SelfFillRun(accounts: Accounts, prec: MarketPrecision, o: LimitOrder, own: nat, b: Account)
    returns (house: SpotClearingHouse)
    requires Opens(accounts, prec, o) && o.dir == Buy && 0 < own < o.base && b != o.account
    requires Scale(own, prec.baseLot) <= Available(accounts, o.account, 0)
    requires Scale(o.base - own, prec.baseLot) <= Available(accounts, b, 0)
    ensures fresh(house) && Scale(own, prec.baseLot) > 0
    ensures Supply(house.State().accounts, 0) == Supply(accounts, 0) + Scale(own, prec.baseLot)
  {
    ghost var h, h1;
    var r2;
    house, r2, h, h1 := OpenWithSelfSale(accounts, prec, o, own);
    SellTheRest(house, o, own, b, h, h1, r2);
  }

  method SellTheRest(
      house: SpotClearingHouse, o: LimitOrder, own: nat, b: Account, ghost h: House, ghost h1: House, ghost r: Report)
    requires house.Distinct() && |house.markets| == |h.markets| == |h1.markets| == 1 && o.market == 0
    requires o.dir == Buy && 0 < own < o.base && b != o.account && FirstCame(h, o, h1) == true
    requires MarketStep(h1, 0, Sell, own, o.account, house.State(), Executed(r)) == true
    requires Scale(o.base - own, h.markets[0].prec.baseLot) <= Available(h.accounts, b, h.markets[0].base)
    modifies house, house.markets
    ensures house.markets == old(house.markets) && Scale(own, h.markets[0].prec.baseLot) > 0
    ensures Supply(house.State().accounts, h.markets[0].base)
         == Supply(h.accounts, h.markets[0].base) + Scale(own, h.markets[0].prec.baseLot)
  {
    ghost var h2 := house.State();
    var size := o.base - own;
    SaleReady(h, o, h1, own, h2, r, size, b);
    var r3 := PlaceSell(house, size, b, h2);
    SaleMints(h, o, h1, own, h2, r, size, b, house.State(), r3);
  }

  /** The same for the first market. */
  lemma {:induction false} SaleReady(
      h: House, o: LimitOrder, h1: House, own: nat, h2: House, r: Report, size: nat, b: Account)
    requires |h.markets| == |h1.markets| == 1 && o.market == 0 && FirstCame(h, o, h1) == true
    requires o.dir == Buy && 0 < own < o.base && b != o.account
    requires MarketStep(h1, 0, Sell, own, o.account, h2, Executed(r)) == true
    requires Scale(size, h.markets[0].prec.baseLot) <= Available(h.accounts, b, h.markets[0].base)
    ensures |h2.markets| == 1 && MarketOk(h2.markets[0]) == true
    ensures Scale(size, h2.markets[0].prec.baseLot) <= Available(h2.accounts, b, h2.markets[0].base)
  {
    LastSaleReady(h, o, h1, own, h2, r, size, b);
  }

  lemma {:induction false} SaleMints(h: House, o: LimitOrder, h1: House, own: nat, h2: House, r: Report,
      size: nat, b: Account, h3: House, r3: Report)
    requires |h.markets| == |h1.markets| == |h2.markets| == 1 && o.market == 0 && FirstCame(h, o, h1) == true
    requires o.dir == Buy && 0 < own < o.base && size == o.base - own && b != o.account
    requires MarketStep(h1, 0, Sell, own, o.account, h2, Executed(r)) == true
    requires MarketStep(h2, 0, Sell, size, b, h3, Executed(r3)) == true
    ensures Scale(own, h.markets[0].prec.baseLot) > 0
    ensures Supply(h3.accounts, h.markets[0].base)
         == Supply(h.accounts, h.markets[0].base) + Scale(own, h.markets[0].prec.baseLot)
  {
    SelfFillsMint(h, o, h1, own, h2, r, size, b, h3, r3);
  }

  lemma {:induction false} SelfSaleReady(h: House, o: LimitOrder, h1: House)
    requires FirstCame(h, o, h1) && o.dir == Buy
    ensures |h1.markets| == |h.markets| && MarketOk(h1.markets[o.market]) == true
      && SameMarket(h.markets[o.market], h1.markets[o.market])
    ensures var x := h.markets[o.market].base;
      forall a :: Available(h1.accounts, a, x) == Available(h.accounts, a, x)
  {
    BaseStands(h, o, h1);
  }

  lemma {:induction false} LastSaleReady(
      h: House, o: LimitOrder, h1: House, own: nat, h2: House, r: Report, size: nat, b: Account)
    requires FirstCame(h, o, h1) && o.dir == Buy && 0 < own < o.base && b != o.account
    requires MarketStep(h1, o.market, Sell, own, o.account, h2, Executed(r)) == true
    requires Scale(size, h.markets[o.market].prec.baseLot) <= Available(h.accounts, b, h.markets[o.market].base)
    ensures |h2.markets| == |h.markets| && MarketOk(h2.markets[o.market]) == true
    ensures Scale(size, h2.markets[o.market].prec.baseLot) <= Available(h2.accounts, b, h2.markets[o.market].base)
  {
    FirstBid(h, o, h1);
    BaseStands(h, o, h1);
    SelfSale(h1, o.market, o, own, h2, r, o.(selfFilled := own));
    OthersKeep(h1, o.market, o, own, h2, r, b);
  }

  /** The lock of a bid leaves all base balances alone. */
  lemma {:induction false} BaseStands(h: House, o: LimitOrder, h': House)
    requires FirstCame(h, o, h') && o.dir == Buy
    ensures var x := h.markets[o.market].base;
      forall a :: Available(h'.accounts, a, x) == Available(h.accounts, a, x)
  {
    forall a ensures Available(h'.accounts, a, h.markets[o.market].base)
        == Available(h.accounts, a, h.markets[o.market].base) {
      ApplyEffect(h.accounts, LockDelta(h.markets[o.market], o), a, h.markets[o.market].base);
    }
  }

  lemma {:induction false} ElsewhereStands(accounts: Accounts, ds: seq<Delta>, a: Account, b: Account, x: Asset)
    requires a != b && forall i :: 0 <= i < |ds| ==> ds[i].account == a
    ensures Available(ApplyAll(accounts, ds), b, x) == Available(accounts, b, x)
    decreases |ds|
  {
    if ds != [] {
      ApplyEffect(accounts, ds[0], b, x);
      ElsewhereStands(Apply(accounts, ds[0]), ds[1..], a, b, x);
    }
  }

  lemma {:induction false} SelfSaleDeltas(mk: Market, o: LimitOrder, own: nat, r: Report)
    requires own <= Remaining(o) && Live(r.filled) == [] && r.residual == Some(ResidualFor(Fill(o, own, true)))
    ensures var ds := MarketDeltas(mk, Sell, own, o.account, r);
      forall i :: 0 <= i < |ds| ==> ds[i].account == o.account
  {
    DoneSkipsDead(mk, Buy, r.filled);
    assert DoneDeltas(mk, Buy, r.filled) == [];
  }

  /** A sale to oneself leaves the other accounts alone. */
  lemma {:induction false} OthersKeep(h: House, k: nat, o: LimitOrder, own: nat, h': House, r: Report, b: Account)
    requires k < |h.markets| && OneBid(h.markets[k], o) == true && b != o.account && !Dead(o)
    requires o.filled == 0 && o.selfFilled == 0 && 0 < own < o.base
    requires MarketStep(h, k, Sell, own, o.account, h', Executed(r)) == true
    ensures Available(h'.accounts, b, h.markets[k].base) == Available(h.accounts, b, h.markets[k].base)
  {
    var mk, f := h.markets[k], Fill(o, own, true);
    SellFacts(h, k, own, o.account, h', r);
    SellOneBook(mk, o, own, o.account, h'.markets[k], r, f);
    OneFill(o, own, o.account, own);
    SelfSaleDeltas(mk, o, own, r);
    ElsewhereStands(h.accounts, MarketDeltas(mk, Sell, own, o.account, r), o.account, b, mk.base);
  }

  // ---------- inputs for the runs, at the program's own lot sizes ----------

  lemma {:induction false} TenthAmount(p: MarketPrecision, dir: Direction, lots: nat, price: nat)
    requires TenthTicks(p) && price > 0
    ensures OutAmount(p, dir, lots, price) == if dir == Buy then (lots * price / 10) * p.quoteLot else lots * p.baseLot
  {
    TenthRates(lots, price, p);
    ScaleIsProduct(BaseToQuote(lots, price, p), p.quoteLot);
    ScaleIsProduct(lots, p.baseLot);
  }

  /** Account 1 holds quote and base, account 2 base. */
  ghost predicate Purses(accounts: Accounts) {
    accounts == map[1 := [TokenBalance(1, 1000, 1000), TokenBalance(0, 500, 500)], 2 := [TokenBalance(0, 500, 500)]]
  }

  lemma {:induction false} LookupPair(b: TokenBalance, c: TokenBalance, x: Asset)
    ensures Lookup([], x) == TokenBalance(x, 0, 0)
      && Lookup([c], x) == if c.asset == x then c else TokenBalance(x, 0, 0)
    ensures Lookup([b, c], x) == if b.asset == x then b else Lookup([c], x)
  {
    assert [b, c][1..] == [c] && [c][1..] == [];
  }

  lemma {:induction false} PursesHold(accounts: Accounts, a: Account, x: Asset)
    requires Purses(accounts)
    ensures Available(accounts, a, x) == Total(accounts, a, x)
         == if a == 1 && x == 1 then 1000 else if (a == 1 || a == 2) && x == 0 then 500 else 0
  {
    LookupPair(TokenBalance(1, 1000, 1000), TokenBalance(0, 500, 500), x);
  }

  lemma {:induction false} PursesUnlocked(accounts: Accounts)
    requires Purses(accounts)
    ensures Unlocked(accounts) == true
  {
    forall a, x ensures 0 <= Available(accounts, a, x) && Locked(accounts, a, x) == 0 {
      PursesHold(accounts, a, x);
    }
  }

  /** The inputs of the three runs exist. */
  lemma {:induction false} RunsHaveInputs(
      accounts: Accounts, p: MarketPrecision, other: MarketPrecision, ask: LimitOrder, bid: LimitOrder)
    requires Purses(accounts) && p == Precision(100, 100, 100, 3) && other == Precision(200, 100, 100, 3)
    requires ask == Order(1, 0, Open, 2, Sell, 10, 4, 0, 0) && bid == Order(2, 0, Open, 1, Buy, 10, 10, 0, 0)
    ensures Opens(accounts, p, ask) && Opens(accounts, p, bid) && Exceeds(ask, bid)
    ensures OutAmount(p, bid.dir, bid.base - ask.base, bid.price) > 0
    ensures OutAmount(other, ask.dir, ask.base, ask.price) > OutAmount(p, ask.dir, ask.base, ask.price)
    ensures Scale(5, p.baseLot) <= Available(accounts, bid.account, 0)
      && Scale(bid.base - 5, p.baseLot) <= Available(accounts, 2, 0)
  {
    ProgramMarket(p);
    TenthAmount(p, bid.dir, bid.base, bid.price);
    TenthAmount(p, bid.dir, bid.base - ask.base, bid.price);
    TenthAmount(p, ask.dir, ask.base, ask.price);
    ScaleIsProduct(ask.base, other.baseLot);
    ScaleIsProduct(5, p.baseLot);
    PursesUnlocked(accounts);
    PursesHold(accounts, 1, 1);
    PursesHold(accounts, 1, 0);
    PursesHold(accounts, 2, 0);
  }
}
