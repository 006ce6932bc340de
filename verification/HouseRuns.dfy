/** Market orders, cancels, and whole runs of the clearing house. */
module HouseRuns {
  import opened LotMath
  import opened Orders
  import opened BookEdits
  import opened Sweeps
  import opened Matching
  import opened SpotMarkets
  import opened Balances
  import opened Settlement
  import opened ClearingHouse
  import opened Solvency

  // ---------- market orders ----------

  /** The quote spent by a market buy, self trades included, is within its budget. */
  lemma {:induction false} BuyInBudget(levels: seq<Level>, quote: nat, taker: Account, p: MarketPrecision)
    requires BookOk(Sell, levels) && Priced(levels)
    ensures AllQuote(BuyFills(levels, quote, taker, p), p) <= quote
  {
    if levels != [] && quote > 0 && QuoteToBase(quote, Top(levels).price, p) > 0 {
      var base := QuoteToBase(quote, Top(levels).price, p);
      var g := Greedy(Live(Top(levels).orders), base, Some(taker));
      LevelInBudget(levels, quote, Some(taker), p);
      if Consumed(Top(levels).orders, base) {
        BookOkPrefix(Sell, levels, |levels| - 1);
        BuyInBudget(Below(levels), quote - AllQuote(g, p), taker, p);
        QuoteConcat(g, BuyFills(Below(levels), quote - AllQuote(g, p), taker, p), p);
      }
    }
  }

  /** No fill of the market order is with an order of the sender. */
  ghost predicate NoSelfTrade(mk: Market, dir: Direction, size: nat, a: Account)
    requires dir == Buy ==> Priced(mk.asks)
  {
    forall i :: 0 <= i < |MarketFills(mk, dir, size, a)| ==> !MarketFills(mk, dir, size, a)[i].own
  }

  lemma {:induction false} MarketFair(mk: Market, dir: Direction, size: nat, a: Account)
    requires CleanMarket(mk) && (dir == Buy ==> Priced(mk.asks)) && NoSelfTrade(mk, dir, size, a)
    ensures FairFills(Opposite(dir), Flatten(Side(mk, Opposite(dir))), MarketFills(mk, dir, size, a)) == true
  {
    if dir == Sell {
      SellMatches(mk.bids, size, a);
      FairFromMatches(Buy, mk.bids, MarketFills(mk, dir, size, a));
    } else {
      BuyMatches(mk.asks, size, a, mk.prec);
      FairFromMatches(Sell, mk.asks, MarketFills(mk, dir, size, a));
    }
  }

  lemma {:induction false} MarketPaysWithinNeed(mk: Market, dir: Direction, size: nat, a: Account, tally: Tally)
    requires MarketOk(mk) && (dir == Buy ==> Priced(mk.asks))
    requires tally == TallyOf(MarketFills(mk, dir, size, a), mk.prec)
    ensures 0 - TakerDeltas(mk, dir, a, NeedOf(mk, dir, size), tally)[0].total <= NeedOf(mk, dir, size)
  {
    if dir == Sell {
      SellMatches(mk.bids, size, a);
      SellOutAmount(tally.lots, size, mk.prec);
    } else {
      BuyInBudget(mk.asks, size, a, mk.prec);
      SellOutAmount(tally.quote, size, mk.prec);
    }
  }

  lemma {:induction false} MarketFacts(h: House, m: nat, dir: Direction, size: nat, a: Account, h': House, r: Report)
    requires m < |h.markets| && dir == Buy ==> Priced(h.markets[m].asks)
    requires MarketStep(h, m, dir, size, a, h', Executed(r))
    ensures m < |h.markets| == |h'.markets| && h'.markets == h.markets[m := h'.markets[m]]
    ensures var mk, mk' := h.markets[m], h'.markets[m];
      var fills, list := MarketFills(mk, dir, size, a), Flatten(Side(mk, Opposite(dir)));
      && SameMarket(mk, mk') && NeedOf(mk, dir, size) <= Available(h.accounts, a, OutAsset(mk, dir))
      && Live(r.filled) == DoneOrders(fills) && r.residual == ResidualOf(fills) && r.tally == TallyOf(fills, mk.prec)
      && |fills| <= |list| && Flatten(Side(mk', Opposite(dir))) == Leftover(list, fills)
      && Side(mk', dir) == Side(mk, dir)
      && h'.accounts == ApplyAll(h.accounts, MarketDeltas(mk, dir, size, a, r))
  {
  }

  lemma {:induction false} MarketSolvent(h: House, m: nat, dir: Direction, size: nat, a: Account, h': House, r: Report)
    requires m < |h.markets| && CleanMarket(h.markets[m]) && Solvent(h) == true
    requires (dir == Buy ==> Priced(h.markets[m].asks)) && NoSelfTrade(h.markets[m], dir, size, a)
    requires MarketStep(h, m, dir, size, a, h', Executed(r))
    ensures Solvent(h') == true
    ensures Safe(h.accounts, MarketDeltas(h.markets[m], dir, size, a, r)) == true
  {
    var mk, opp := h.markets[m], Opposite(dir);
    var rest := Pledges(mk, Flatten(Side(mk, dir))) + Others(h.markets, m);
    MarketFacts(h, m, dir, size, a, h', r);
    OppositeTwice(dir);
    assert CoversBoth(h.accounts, Pledges(mk, Flatten(Side(mk, opp))), rest) == true by {
      SplitCover(h, m, opp);
    }
    MarketFair(mk, dir, size, a);
    MarketPaysWithinNeed(mk, dir, size, a, r.tally);
    MarketCover(mk, dir, size, a, h.accounts, Flatten(Side(mk, opp)), MarketFills(mk, dir, size, a), r, rest);
    Assemble(h, m, h', opp);
  }

  lemma {:induction false} MarketCover(mk: Market, dir: Direction, size: nat, a: Account, accounts: Accounts,
                                       list: seq<LimitOrder>, fills: seq<Fill>, r: Report, rest: seq<Pledge>)
    requires mk.base != mk.quote && FairFills(Opposite(dir), list, fills)
    requires NeedOf(mk, dir, size) <= Available(accounts, a, OutAsset(mk, dir))
    requires 0 - TakerDeltas(mk, dir, a, NeedOf(mk, dir, size), r.tally)[0].total <= NeedOf(mk, dir, size)
    requires Live(r.filled) == DoneOrders(fills) && r.residual == ResidualOf(fills)
    requires CoversBoth(accounts, Pledges(mk, list), rest) == true
    ensures Safe(accounts, MarketDeltas(mk, dir, size, a, r)) == true
    ensures CoversBoth(ApplyAll(accounts, MarketDeltas(mk, dir, size, a, r)), Pledges(mk, Leftover(list, fills)),
                       rest) == true
  {
    assert MarketDeltas(mk, dir, size, a, r)
        == [NeedDelta(mk, dir, size, a)] + SettleDeltas(mk, dir, a, NeedOf(mk, dir, size), r);
    SettledCover(mk, dir, accounts, list, fills, r, rest, a, NeedOf(mk, dir, size));
  }

  // ---------- cancels ----------

  /** The copy is the live order it names, up to its status, and has no self trades. */
  ghost predicate SameOrder(x: LimitOrder, o: LimitOrder) { x.(status := o.status) == o && x.selfFilled == 0 }

  ghost predicate FullCopy(list: seq<LimitOrder>, o: LimitOrder) {
    forall x :: x in list && SameSlot(x, o) ==> SameOrder(x, o)
  }

  /** What an exact cancel does to the price-time list and the balances. */
  ghost predicate CancelEffect(h: House, o: LimitOrder, p: MarketPrecision, h': House, unfilled: nat) {
    && o.market < |h.markets| == |h'.markets| && h'.markets == h.markets[o.market := h'.markets[o.market]]
    && var mk, mk' := h.markets[o.market], h'.markets[o.market];
       var list := Flatten(Side(mk, o.dir));
       && SameMarket(mk, mk') && Side(mk', Opposite(o.dir)) == Side(mk, Opposite(o.dir))
       && (Lists(list, o) ==> unfilled == o.base - o.filled && Flatten(Side(mk', o.dir)) == Without(list, o))
       && h'.accounts == Apply(h.accounts, CancelDelta(mk, o, unfilled, p))
  }

  lemma {:induction false} CancelFacts(h: House, o: LimitOrder, p: MarketPrecision, h': House, unfilled: nat)
    requires CancelStep(h, o, p, h', true, unfilled) == true && o.market < |h.markets| && MarketOk(h.markets[o.market])
    requires FullCopy(Flatten(Side(h.markets[o.market], o.dir)), o) == true
    ensures CancelEffect(h, o, p, h', unfilled) == true
  {
    var mk := h.markets[o.market];
    FullIsExact(Flatten(Side(mk, o.dir)), o);
    CancelIsExact(mk, o, h'.markets[o.market], unfilled);
  }

  lemma {:induction false} FullIsExact(list: seq<LimitOrder>, o: LimitOrder)
    requires FullCopy(list, o)
    ensures Exact(list, o) == true
  {
    forall x | x in list && SameSlot(x, o) ensures x.base == o.base && x.filled == o.filled && x.selfFilled == 0 {
      assert SameOrder(x, o);
    }
  }

  /** Entry `k` is the order that `o` names, and the only one. */
  ghost predicate OnlyAt(list: seq<LimitOrder>, o: LimitOrder, k: nat) {
    && k < |list| && SameSlot(list[k], o) && SameOrder(list[k], o)
    && forall i :: 0 <= i < |list| && i != k ==> !SameSlot(list[i], o)
  }

  lemma {:induction false} SlotIndex(side: Direction, levels: seq<Level>, o: LimitOrder) returns (k: nat)
    requires BookOk(side, levels) && Lists(Flatten(levels), o)
    ensures k < |Flatten(levels)| && SameSlot(Flatten(levels)[k], o)
    ensures forall i :: 0 <= i < |Flatten(levels)| && i != k ==> !SameSlot(Flatten(levels)[i], o)
  {
    FlattenSorted(side, levels);
    var list := Flatten(levels);
    var x :| x in list && SameSlot(x, o);
    k :| 0 <= k < |list| && list[k] == x;
    forall i | 0 <= i < |list| && i != k ensures !SameSlot(list[i], o) {
      assert i < k ==> Before(side, list[i], list[k]);
      assert k < i ==> Before(side, list[k], list[i]);
    }
  }

  /** The refund, at lot sizes `p`, exceeds what the order pledged by no more than the
      account's slack. */
  ghost predicate Refundable(h: House, o: LimitOrder, p: MarketPrecision) {
    o.market < |h.markets|
    && OutAmount(p, o.dir, o.base - o.filled, o.price)
       <= PledgeOf(h.markets[o.market], o).amount + Slack(h, o.account, OutAsset(h.markets[o.market], o.dir))
  }

  ghost predicate CancelEnough(h: House, o: LimitOrder, p: MarketPrecision) {
    o.market < |h.markets| && Lists(Flatten(Side(h.markets[o.market], o.dir)), o) ==> Refundable(h, o, p)
  }

  lemma {:induction false} CancelSolventIff(h: House, o: LimitOrder, p: MarketPrecision, h': House, unfilled: nat)
    requires o.market < |h.markets| && CleanMarket(h.markets[o.market]) == true && Solvent(h) == true
    requires FullCopy(Flatten(Side(h.markets[o.market], o.dir)), o) == true
    requires CancelStep(h, o, p, h', true, unfilled) == true
    ensures Solvent(h') == CancelEnough(h, o, p)
  {
    if Lists(Flatten(Side(h.markets[o.market], o.dir)), o) {
      RefundSolventIff(h, o, p, h', unfilled);
      EnoughIs(h, o, p);
    } else {
      UnlistedSolvent(h, o, p, h', unfilled);
    }
  }

  lemma {:induction false} EnoughIs(h: House, o: LimitOrder, p: MarketPrecision)
    requires o.market < |h.markets| && Lists(Flatten(Side(h.markets[o.market], o.dir)), o) == true
    ensures CancelEnough(h, o, p) == (
      OutAmount(p, o.dir, o.base - o.filled, o.price)
      <= PledgeOf(h.markets[o.market], o).amount + Slack(h, o.account, OutAsset(h.markets[o.market], o.dir)))
  {
  }

  lemma {:induction false} UnlistedSolvent(h: House, o: LimitOrder, p: MarketPrecision, h': House, unfilled: nat)
    requires o.market < |h.markets| && Solvent(h) == true && CancelStep(h, o, p, h', true, unfilled)
    requires !Lists(Flatten(Side(h.markets[o.market], o.dir)), o)
    ensures Solvent(h') == true
  {
    NothingListed(h, o, p, h');
  }

  /** At the lot sizes of the order's own market a cancel keeps the house solvent. */
  lemma {:induction false} CancelSolvent(h: House, o: LimitOrder, h': House, unfilled: nat)
    requires o.market < |h.markets| && CleanMarket(h.markets[o.market]) == true && Solvent(h) == true
    requires FullCopy(Flatten(Side(h.markets[o.market], o.dir)), o) == true
    requires CancelStep(h, o, h.markets[o.market].prec, h', true, unfilled) == true
    ensures Solvent(h') == true
  {
    CancelSolventIff(h, o, h.markets[o.market].prec, h', unfilled);
    assert CoversAt(h.accounts, HousePledges(h.markets), o.account, OutAsset(h.markets[o.market], o.dir));
  }

  lemma {:induction false} NothingListed(h: House, o: LimitOrder, p: MarketPrecision, h': House)
    requires o.market < |h.markets| == |h'.markets| && Solvent(h) == true
    requires h'.markets == h.markets[o.market := h'.markets[o.market]]
    requires var mk, mk' := h.markets[o.market], h'.markets[o.market];
      && SameMarket(mk, mk') && Side(mk', Opposite(o.dir)) == Side(mk, Opposite(o.dir))
         && Side(mk', o.dir) == Side(mk, o.dir)
      && h'.accounts == Apply(h.accounts, CancelDelta(mk, o, 0, p))
    ensures Solvent(h') == true
  {
    var k, mk := o.market, h.markets[o.market];
    var list, rest := Flatten(Side(mk, o.dir)), Pledges(mk, Flatten(Side(mk, Opposite(o.dir)))) + Others(h.markets, k);
    assert CoversBoth(h.accounts, Pledges(mk, list), rest) == true by {
      SplitCover(h, k, o.dir);
    }
    NothingBack(mk, o, p);
    ZeroBoth(h.accounts, CancelDelta(mk, o, 0, p), Pledges(mk, list), rest);
    Assemble(h, k, h', o.dir);
  }

  /** The refund is computed with the lot sizes of whatever market the cancel names. Whether
      the house stays solvent depends on the refund alone: it may exceed the order's pledge
      by no more than the account's slack. */
  lemma {:induction false} RefundSolventIff(h: House, o: LimitOrder, p: MarketPrecision, h': House, unfilled: nat)
    requires o.market < |h.markets| && CleanMarket(h.markets[o.market]) == true && Solvent(h) == true
    requires Lists(Flatten(Side(h.markets[o.market], o.dir)), o)
    requires FullCopy(Flatten(Side(h.markets[o.market], o.dir)), o) == true
    requires CancelStep(h, o, p, h', true, unfilled) == true
    ensures Solvent(h') <==>
      OutAmount(p, o.dir, o.base - o.filled, o.price)
      <= PledgeOf(h.markets[o.market], o).amount + Slack(h, o.account, OutAsset(h.markets[o.market], o.dir))
  {
    CancelFacts(h, o, p, h', unfilled);
    RefundEffect(h, o, p, h', unfilled);
  }

  lemma {:induction false} NamedIndex(mk: Market, o: LimitOrder) returns (i: nat)
    requires MarketOk(mk) && Lists(Flatten(Side(mk, o.dir)), o) && FullCopy(Flatten(Side(mk, o.dir)), o) == true
    ensures OnlyAt(Flatten(Side(mk, o.dir)), o, i) == true
  {
    i := SlotIndex(o.dir, Side(mk, o.dir), o);
    assert Flatten(Side(mk, o.dir))[i] in Flatten(Side(mk, o.dir));
  }

  lemma {:induction false} RefundEffect(h: House, o: LimitOrder, p: MarketPrecision, h': House, unfilled: nat)
    requires o.market < |h.markets| && MarketOk(h.markets[o.market]) == true && Solvent(h) == true
    requires Lists(Flatten(Side(h.markets[o.market], o.dir)), o) == true
    requires FullCopy(Flatten(Side(h.markets[o.market], o.dir)), o) == true
    requires CancelEffect(h, o, p, h', unfilled) == true
    ensures Solvent(h') <==>
      OutAmount(p, o.dir, o.base - o.filled, o.price)
      <= PledgeOf(h.markets[o.market], o).amount + Slack(h, o.account, OutAsset(h.markets[o.market], o.dir))
  {
    var i := NamedIndex(h.markets[o.market], o);
    RefundAt(h, o, p, h', i);
  }

  lemma {:induction false} RefundAt(h: House, o: LimitOrder, p: MarketPrecision, h': House, i: nat)
    requires CancelEffect(h, o, p, h', o.base - o.filled) == true && Solvent(h) == true
    requires o.market < |h.markets| && OnlyAt(Flatten(Side(h.markets[o.market], o.dir)), o, i) == true
    requires Lists(Flatten(Side(h.markets[o.market], o.dir)), o)
    ensures Solvent(h') <==>
      OutAmount(p, o.dir, o.base - o.filled, o.price)
      <= PledgeOf(h.markets[o.market], o).amount + Slack(h, o.account, OutAsset(h.markets[o.market], o.dir))
  {
    var k, mk := o.market, h.markets[o.market];
    var list := Flatten(Side(mk, o.dir));
    var rest := Pledges(mk, Flatten(Side(mk, Opposite(o.dir)))) + Others(h.markets, k);
    var x := OutAsset(mk, o.dir);
    assert CoversBoth(h.accounts, Pledges(mk, list), rest) == true by {
      SplitCover(h, k, o.dir);
    }
    assert Claim(HousePledges(h.markets), o.account, x)
        == Claim(Pledges(mk, list), o.account, x) + Claim(rest, o.account, x) by {
      HouseClaim(h.markets, k, o.dir, o.account, x);
      ClaimAppend(Pledges(mk, Flatten(Side(mk, Opposite(o.dir)))), Others(h.markets, k), o.account, x);
    }
    RefundIff(mk, h.accounts, list, o, p, rest, i);
    Assemble(h, k, h', o.dir);
  }

  lemma {:induction false} RefundIff(
      mk: Market, accounts: Accounts, list: seq<LimitOrder>, o: LimitOrder, p: MarketPrecision,
      rest: seq<Pledge>, k: nat)
    requires CoversBoth(accounts, Pledges(mk, list), rest) == true && OnlyAt(list, o, k) == true
    ensures var x := OutAsset(mk, o.dir);
      var refund := OutAmount(p, o.dir, o.base - o.filled, o.price);
      CoversBoth(Apply(accounts, CancelDelta(mk, o, o.base - o.filled, p)), Pledges(mk, Without(list, o)), rest)
      <==> refund <= PledgeOf(mk, o).amount
                     + Total(accounts, o.account, x) - Available(accounts, o.account, x)
                     - Claim(Pledges(mk, list), o.account, x) - Claim(rest, o.account, x)
  {
    var d, x := CancelDelta(mk, o, o.base - o.filled, p), OutAsset(mk, o.dir);
    var next, ps := Apply(accounts, d), Pledges(mk, Without(list, o));
    var refund := OutAmount(p, o.dir, o.base - o.filled, o.price);
    var room := PledgeOf(mk, o).amount + Total(accounts, o.account, x) - Available(accounts, o.account, x)
                - Claim(Pledges(mk, list), o.account, x) - Claim(rest, o.account, x);
    forall a, y ensures CoversBothAt(next, ps, rest, a, y) <==> (a == o.account && y == x ==> refund <= room) {
      assert CoversBothAt(accounts, Pledges(mk, list), rest, a, y);
      ClaimWithout(mk, list, o, k, a, y);
      ApplyEffect(accounts, d, a, y);
    }
    assert CoversBoth(next, ps, rest) ==> CoversBothAt(next, ps, rest, o.account, x);
  }

  lemma {:induction false} NothingBack(mk: Market, o: LimitOrder, p: MarketPrecision)
    ensures CancelDelta(mk, o, 0, p).available == 0
  {
    assert BaseToQuote(0, o.price, p) == 0;
  }

  lemma {:induction false} ZeroBoth(accounts: Accounts, d: Delta, ps: seq<Pledge>, rest: seq<Pledge>)
    requires CoversBoth(accounts, ps, rest) == true && d.available == 0 && d.total == 0
    ensures CoversBoth(Apply(accounts, d), ps, rest) == true
  {
    forall a, x ensures CoversBothAt(Apply(accounts, d), ps, rest, a, x) {
      assert CoversBothAt(accounts, ps, rest, a, x);
      ApplyEffect(accounts, d, a, x);
    }
  }

  // ---------- markets stay clean ----------

  lemma {:induction false} CleanLeftover(side: Direction, list: seq<LimitOrder>, fills: seq<Fill>)
    requires Clean(list) && FairFills(side, list, fills)
    ensures Clean(Leftover(list, fills))
  {
  }

  lemma {:induction false} CleanEnqueue(side: Direction, list: seq<LimitOrder>, o: LimitOrder)
    requires Clean(list) && o.selfFilled == 0
    ensures Clean(Enqueue(side, list, o))
  {
    if list != [] && Key(side, o.price) <= Key(side, list[0].price) {
      CleanEnqueue(side, list[1..], o);
    }
  }

  lemma {:induction false} CleanWithout(list: seq<LimitOrder>, o: LimitOrder)
    requires Clean(list)
    ensures Clean(Without(list, o))
  {
    if list != [] {
      CleanWithout(list[1..], o);
    }
  }

  lemma {:induction false} CleanSides(m: Market, m': Market, dir: Direction)
    requires CleanMarket(m) && MarketOk(m') == true && SameMarket(m, m')
    requires Clean(Flatten(Side(m', dir))) && Clean(Flatten(Side(m', Opposite(dir))))
    ensures CleanMarket(m') == true
  {
  }

  lemma {:induction false} LimitKeepsClean(m: Market, o: LimitOrder, m': Market, r: Option<Report>)
    requires CleanMarket(m) && o.filled == 0 && o.selfFilled == 0 && LimitNext(m, o, m', r)
    ensures CleanMarket(m') == true
  {
    LimitKeepsOk(m, o, m', r);
    var own, opp := Flatten(Side(m, o.dir)), Flatten(Side(m, Opposite(o.dir)));
    if r == None {
      CleanEnqueue(o.dir, own, o);
    } else {
      var fills := TargetFills(m, o);
      LimitFair(Opposite(o.dir), Side(m, Opposite(o.dir)), o.price, o.base);
      CleanLeftover(Opposite(o.dir), opp, fills);
      if AllLots(fills) < o.base {
        CleanEnqueue(o.dir, own, o.(filled := AllLots(fills)));
      }
    }
    CleanSides(m, m', o.dir);
  }

  lemma {:induction false} MarketKeepsClean(m: Market, dir: Direction, size: nat, a: Account, m': Market, r: Report)
    requires CleanMarket(m) && (dir == Buy ==> Priced(m.asks)) && NoSelfTrade(m, dir, size, a)
    requires MarketNext(m, dir, MarketFills(m, dir, size, a), m', r)
    ensures CleanMarket(m') == true
  {
    MarketKeepsOk(m, dir, MarketFills(m, dir, size, a), m', r);
    MarketFair(m, dir, size, a);
    CleanLeftover(Opposite(dir), Flatten(Side(m, Opposite(dir))), MarketFills(m, dir, size, a));
    CleanSides(m, m', dir);
  }

  lemma {:induction false} CancelKeepsClean(m: Market, o: LimitOrder, m': Market, unfilled: nat)
    requires CleanMarket(m) && CancelNext(m, o, m', unfilled) && FullCopy(Flatten(Side(m, o.dir)), o)
    ensures CleanMarket(m') == true
  {
    FullIsExact(Flatten(Side(m, o.dir)), o);
    CancelIsExact(m, o, m', unfilled);
    assert CancelSafe(Flatten(Side(m, o.dir)), o);
    CancelKeepsOk(m, o, m', unfilled);
    CleanWithout(Flatten(Side(m, o.dir)), o);
    CleanSides(m, m', o.dir);
  }

  // ---------- conservation ----------

  lemma {:induction false} DoneAlive(side: Direction, list: seq<LimitOrder>, fills: seq<Fill>)
    requires FairFills(side, list, fills)
    ensures forall o :: o in DoneOrders(fills) ==> !Dead(o) && o.selfFilled == 0
    decreases |fills|
  {
    if fills != [] {
      assert FairFills(side, list[1..], fills[1..]) by {
        assert forall i :: 0 <= i < |fills[1..]| ==> fills[1..][i] == fills[i + 1] && list[1..][i] == list[i + 1];
      }
      DoneAlive(side, list[1..], fills[1..]);
    }
  }

  /** Settling fair fills changes no asset's supply. */
  lemma {:induction false} FairConserves(
      mk: Market, dir: Direction, a: Account, lock: nat, list: seq<LimitOrder>, fills: seq<Fill>,
                                         r: Report, accounts: Accounts, x: Asset)
    requires mk.base != mk.quote && FairFills(Opposite(dir), list, fills)
    requires Live(r.filled) == DoneOrders(fills) && r.residual == ResidualOf(fills)
      && r.tally == TallyOf(fills, mk.prec)
    ensures Supply(ApplyAll(accounts, [Delta(a, OutAsset(mk, dir), 0 - lock, 0)]
                                   + SettleDeltas(mk, dir, a, lock, r)), x)
         == Supply(accounts, x)
  {
    var d, ds := Delta(a, OutAsset(mk, dir), 0 - lock, 0), SettleDeltas(mk, dir, a, lock, r);
    DoneAlive(Opposite(dir), list, fills);
    var done := DoneOrders(fills);
    assert forall i :: 0 <= i < |done| ==> done[i] in done;
    SettleConserves(mk, dir, a, lock, fills, r);
    SupplyApplyAll(accounts, [d] + ds, x);
    NetAppend([d], ds, x);
    assert [d][1..] == [];
    assert Net([d], x) == 0;
  }

  // ---------- runs ----------

  datatype Op =
    | PlaceLimit(o: LimitOrder)
    | PlaceMarket(market: nat, dir: Direction, size: nat, account: Account)
    | CancelOp(o: LimitOrder, prec: MarketPrecision)

  datatype Result = Placed(out: Outcome) | CancelResult(ok: bool, unfilled: nat)

  /** A market order is funded. */
  ghost predicate CanPay(h: House, m: nat, dir: Direction, size: nat, a: Account) {
    m < |h.markets| && NeedOf(h.markets[m], dir, size) <= Available(h.accounts, a, OutAsset(h.markets[m], dir))
  }

  /** What the program relies on its callers for, of orders and cancels that it takes: fresh
      ids and positive sizes (A), no market order that meets the sender's own orders (B),
      priced asks and funded market buys, and cancels that carry the current copy of the
      order (D). */
  ghost predicate Legal(h: House, op: Op) {
    match op
    case PlaceLimit(o) =>
      && o.filled == 0 && o.selfFilled == 0 && o.status == Open
      && (Funded(h, o) ==> NewOrder(h.markets[o.market], o))
    case PlaceMarket(m, dir, size, a) =>
      && (m < |h.markets| ==> BuyDefined(h.accounts, h.markets[m], dir, size, a))
      && (CanPay(h, m, dir, size, a) ==> NoSelfTrade(h.markets[m], dir, size, a))
    case CancelOp(o, p) =>
      o.market < |h.markets| ==> FullCopy(Flatten(Side(h.markets[o.market], o.dir)), o)
  }

  /** Limit orders fill completely on arrival or rest untouched, and cancels come with the
      lot sizes of the order's market. */
  ghost predicate Whole(h: House, op: Op) {
    match op
    case PlaceLimit(o) => WholeOnArrival(h, o)
    case PlaceMarket(_, _, _, _) => true
    case CancelOp(o, p) => o.market < |h.markets| ==> p == h.markets[o.market].prec
  }

  /** The account's slack bears the step. */
  ghost predicate Enough(h: House, op: Op) {
    match op
    case PlaceLimit(o) => o.filled == 0 && o.selfFilled == 0 ==> LimitEnough(h, o)
    case PlaceMarket(_, _, _, _) => true
    case CancelOp(o, p) => CancelEnough(h, o, p)
  }

  /** A new limit order has no counters, and a market buy divides by no price of zero. */
  ghost predicate Formed(h: House, op: Op) {
    match op
    case PlaceLimit(o) => o.filled == 0 && o.selfFilled == 0
    case PlaceMarket(m, dir, _, _) => m < |h.markets| && dir == Buy ==> Priced(h.markets[m].asks)
    case CancelOp(_, _) => true
  }

  ghost predicate Step(h: House, op: Op, h': House, res: Result)
    requires Formed(h, op)
  {
    match op
    case PlaceLimit(o) => res.Placed? && LimitStep(h, o, h', res.out)
    case PlaceMarket(m, dir, size, a) => res.Placed? && MarketStep(h, m, dir, size, a, h', res.out)
    case CancelOp(o, p) => res.CancelResult? && CancelStep(h, o, p, h', res.ok, res.unfilled)
  }

  /** The balance deltas of a step. */
  function StepDeltas(h: House, op: Op, res: Result): seq<Delta> {
    match (op, res)
    case (PlaceLimit(o), Placed(out)) => LimitStepDeltas(h, o, out)
    case (PlaceMarket(m, dir, size, a), Placed(Executed(r))) =>
      if m < |h.markets| then MarketDeltas(h.markets[m], dir, size, a, r) else []
    case (CancelOp(o, p), CancelResult(ok, unfilled)) =>
      if o.market < |h.markets| then [CancelDelta(h.markets[o.market], o, unfilled, p)] else []
    case _ => []
  }

  /** A step replaces at most one market. */
  lemma {:induction false} CleanReplaced(h: House, k: nat, h': House)
    requires CleanHouse(h) && k < |h.markets| == |h'.markets| && h'.markets == h.markets[k := h'.markets[k]]
    requires CleanMarket(h'.markets[k])
    ensures CleanHouse(h') == true
  {
    forall i | 0 <= i < |h'.markets| ensures CleanMarket(h'.markets[i]) {
      if i != k {
        assert CleanMarket(h.markets[i]);
      }
    }
  }

  /** Every legal step keeps all books in order, uncrossed and free of self trades. */
  lemma {:induction false} StepKeepsClean(h: House, op: Op, h': House, res: Result)
    requires CleanHouse(h) == true && Legal(h, op) && Step(h, op, h', res) == true
    ensures CleanHouse(h') == true
  {
    match op
    case PlaceLimit(o) =>
      if o.market < |h.markets| && res.out != Refused {
        assert CleanMarket(h.markets[o.market]);
        LimitKeepsClean(h.markets[o.market], o, h'.markets[o.market], ReportOf(res.out));
        CleanReplaced(h, o.market, h');
      }
    case PlaceMarket(m, dir, size, a) =>
      if m < |h.markets| && res.out != Refused {
        assert CleanMarket(h.markets[m]);
        MarketKeepsClean(h.markets[m], dir, size, a, h'.markets[m], res.out.report);
        CleanReplaced(h, m, h');
      }
    case CancelOp(o, p) =>
      if o.market < |h.markets| {
        assert CleanMarket(h.markets[o.market]);
        CancelKeepsClean(h.markets[o.market], o, h'.markets[o.market], res.unfilled);
        CleanReplaced(h, o.market, h');
      }
  }

  /** Every legal step conserves the supply of every asset. */
  lemma {:induction false} StepConserves(h: House, op: Op, h': House, res: Result, x: Asset)
    requires CleanHouse(h) == true && Legal(h, op) && Step(h, op, h', res) == true
    ensures Supply(h'.accounts, x) == Supply(h.accounts, x)
  {
    match op
    case PlaceLimit(o) => LimitConserves(h, o, h', res.out, x);
    case PlaceMarket(m, dir, size, a) => MarketConserves(h, m, dir, size, a, h', res.out, x);
    case CancelOp(o, p) =>
      if o.market < |h.markets| {
        SupplyApply(h.accounts, CancelDelta(h.markets[o.market], o, res.unfilled, p), x);
      } else {
        SupplyTouch(h.accounts, o.account, x);
      }
  }

  lemma {:induction false} LimitConserves(h: House, o: LimitOrder, h': House, out: Outcome, x: Asset)
    requires CleanHouse(h) && o.filled == 0 && o.selfFilled == 0 && LimitStep(h, o, h', out)
    ensures Supply(h'.accounts, x) == Supply(h.accounts, x)
  {
    if o.market >= |h.markets| {
      SupplyTouch(h.accounts, o.account, x);
    } else if out == Refused {
      SupplyApply(h.accounts, Delta(o.account, OutAsset(h.markets[o.market], o.dir), 0, 0), x);
    } else if out == Resting {
      var mk := h.markets[o.market];
      ApplyOne(h.accounts, LockDelta(mk, o));
      SupplyApply(h.accounts, LockDelta(mk, o), x);
    } else {
      assert CleanMarket(h.markets[o.market]);
      ExecutedFacts(h, o, h', out.report);
      MatchConserves(h.markets[o.market], o, h.accounts, out.report, x);
    }
  }

  lemma {:induction false} MatchConserves(mk: Market, o: LimitOrder, accounts: Accounts, r: Report, x: Asset)
    requires CleanMarket(mk)
    requires var fills := TargetFills(mk, o);
      Live(r.filled) == DoneOrders(fills) && r.residual == ResidualOf(fills) && r.tally == TallyOf(fills, mk.prec)
    ensures Supply(ApplyAll(accounts, LimitDeltas(mk, o, Some(r))), x) == Supply(accounts, x)
  {
    var opp := Opposite(o.dir);
    LimitFair(opp, Side(mk, opp), o.price, o.base);
    FairMatchConserves(mk, o, Flatten(Side(mk, opp)), TargetFills(mk, o), r, accounts, x);
  }

  lemma {:induction false} MarketConserves(
      h: House, m: nat, dir: Direction, size: nat, a: Account, h': House, out: Outcome, x: Asset)
    requires CleanHouse(h) && (m < |h.markets| && dir == Buy ==> Priced(h.markets[m].asks))
    requires CanPay(h, m, dir, size, a) ==> NoSelfTrade(h.markets[m], dir, size, a)
    requires MarketStep(h, m, dir, size, a, h', out)
    ensures Supply(h'.accounts, x) == Supply(h.accounts, x)
  {
    if m >= |h.markets| {
      SupplyTouch(h.accounts, a, x);
    } else if out == Refused {
      SupplyApply(h.accounts, Delta(a, OutAsset(h.markets[m], dir), 0, 0), x);
    } else {
      assert CleanMarket(h.markets[m]);
      MarketFacts(h, m, dir, size, a, h', out.report);
      SweepConserves(h.markets[m], dir, size, a, h.accounts, out.report, x);
    }
  }

  lemma {:induction false} SweepConserves(
      mk: Market, dir: Direction, size: nat, a: Account, accounts: Accounts, r: Report, x: Asset)
    requires CleanMarket(mk) && (dir == Buy ==> Priced(mk.asks)) && NoSelfTrade(mk, dir, size, a)
    requires var fills := MarketFills(mk, dir, size, a);
      Live(r.filled) == DoneOrders(fills) && r.residual == ResidualOf(fills) && r.tally == TallyOf(fills, mk.prec)
    ensures Supply(ApplyAll(accounts, MarketDeltas(mk, dir, size, a, r)), x) == Supply(accounts, x)
  {
    MarketFair(mk, dir, size, a);
    FairSweepConserves(mk, dir, size, a, Flatten(Side(mk, Opposite(dir))),
                       MarketFills(mk, dir, size, a), r, accounts, x);
  }

  lemma {:induction false} FairSweepConserves(mk: Market, dir: Direction, size: nat, a: Account, list: seq<LimitOrder>,
                                              fills: seq<Fill>, r: Report, accounts: Accounts, x: Asset)
    requires mk.base != mk.quote && FairFills(Opposite(dir), list, fills) == true
    requires Live(r.filled) == DoneOrders(fills) && r.residual == ResidualOf(fills)
      && r.tally == TallyOf(fills, mk.prec)
    ensures Supply(ApplyAll(accounts, MarketDeltas(mk, dir, size, a, r)), x) == Supply(accounts, x)
  {
    FairConserves(mk, dir, a, NeedOf(mk, dir, size), list, fills, r, accounts, x);
    assert MarketDeltas(mk, dir, size, a, r)
        == [NeedDelta(mk, dir, size, a)] + SettleDeltas(mk, dir, a, NeedOf(mk, dir, size), r);
  }

  lemma {:induction false} FairMatchConserves(
      mk: Market, o: LimitOrder, list: seq<LimitOrder>, fills: seq<Fill>, r: Report,
                                              accounts: Accounts, x: Asset)
    requires mk.base != mk.quote && FairFills(Opposite(o.dir), list, fills) == true
    requires Live(r.filled) == DoneOrders(fills) && r.residual == ResidualOf(fills)
      && r.tally == TallyOf(fills, mk.prec)
    ensures Supply(ApplyAll(accounts, LimitDeltas(mk, o, Some(r))), x) == Supply(accounts, x)
  {
    FairConserves(mk, o.dir, o.account, LockOf(mk, o), list, fills, r, accounts, x);
    assert LimitDeltas(mk, o, Some(r)) == [LockDelta(mk, o)] + SettleDeltas(mk, o.dir, o.account, LockOf(mk, o), r);
  }

  /** Every legal step underflows no balance on the way, and keeps the house solvent exactly
      if the account's slack bears it. */
  lemma {:induction false} StepSolventIff(h: House, op: Op, h': House, res: Result)
    requires CleanHouse(h) == true && Solvent(h) == true && Legal(h, op) && Step(h, op, h', res) == true
    ensures Solvent(h') == Enough(h, op)
    ensures Safe(h.accounts, StepDeltas(h, op, res)) == true
  {
    match op
    case PlaceLimit(o) => LimitSolventIff(h, o, h', res.out);
    case PlaceMarket(m, dir, size, a) => MarketKeepsSolvent(h, m, dir, size, a, h', res.out);
    case CancelOp(o, p) => CancelBears(h, o, p, h', res.ok, res.unfilled);
  }

  /** Whole limit orders and cancels at the right lot sizes need no slack. */
  lemma {:induction false} WholeIsEnough(h: House, op: Op)
    requires Solvent(h) && Legal(h, op) && Whole(h, op)
    ensures Enough(h, op) == true
  {
    match op
    case PlaceLimit(o) =>
    case PlaceMarket(m, dir, size, a) =>
    case CancelOp(o, p) =>
      if o.market < |h.markets| {
        assert CoversAt(h.accounts, HousePledges(h.markets), o.account, OutAsset(h.markets[o.market], o.dir));
      }
  }

  lemma {:induction false} MarketKeepsSolvent(
      h: House, m: nat, dir: Direction, size: nat, a: Account, h': House, out: Outcome)
    requires CleanHouse(h) == true && Solvent(h) == true
    requires Legal(h, PlaceMarket(m, dir, size, a)) && MarketStep(h, m, dir, size, a, h', out)
    ensures Solvent(h') == true
    ensures Safe(h.accounts, StepDeltas(h, PlaceMarket(m, dir, size, a), Placed(out))) == true
  {
    CoversNonNegative(h.accounts, HousePledges(h.markets));
    if m >= |h.markets| {
      TouchKeeps(h, a, HousePledges(h.markets));
    } else if out == Refused {
      ZeroDeltaKeeps(h.accounts, a, OutAsset(h.markets[m], dir), HousePledges(h.markets));
    } else {
      assert CleanMarket(h.markets[m]);
      MarketSolvent(h, m, dir, size, a, h', out.report);
    }
  }

  lemma {:induction false} CancelBears(h: House, o: LimitOrder, p: MarketPrecision, h': House, ok: bool, unfilled: nat)
    requires CleanHouse(h) == true && Solvent(h) == true
    requires Legal(h, CancelOp(o, p)) && CancelStep(h, o, p, h', ok, unfilled)
    ensures Solvent(h') == CancelEnough(h, o, p)
    ensures Safe(h.accounts, StepDeltas(h, CancelOp(o, p), CancelResult(ok, unfilled))) == true
  {
    CoversNonNegative(h.accounts, HousePledges(h.markets));
    if o.market >= |h.markets| {
      TouchKeeps(h, o.account, HousePledges(h.markets));
    } else {
      assert CleanMarket(h.markets[o.market]);
      CancelSolventIff(h, o, p, h', unfilled);
      RefundSafe(h.accounts, CancelDelta(h.markets[o.market], o, unfilled, p));
    }
  }

  /** Handing funds back cannot underflow. */
  lemma {:induction false} RefundSafe(accounts: Accounts, d: Delta)
    requires NonNegative(accounts) && d.available >= 0 && d.total == 0
    ensures Safe(accounts, [d]) == true
  {
    forall a, x ensures NonNegativeAt(Apply(accounts, d), a, x) {
      assert NonNegativeAt(accounts, a, x);
      ApplyEffect(accounts, d, a, x);
    }
    ApplyOne(accounts, d);
  }

  /** A run: consecutive states, each reached by a legal step. */
  ghost predicate Run(hs: seq<House>, ops: seq<Op>, results: seq<Result>) {
    && |hs| == |ops| + 1 && |results| == |ops|
    && forall i {:trigger ops[i]} :: 0 <= i < |ops| ==>
         Legal(hs[i], ops[i]) && Step(hs[i], ops[i], hs[i + 1], results[i])
  }

  lemma {:induction false} StepAt(hs: seq<House>, ops: seq<Op>, results: seq<Result>, i: nat)
    requires Run(hs, ops, results) && i < |ops|
    ensures Legal(hs[i], ops[i]) && Step(hs[i], ops[i], hs[i + 1], results[i]) == true
  {
    assert Legal(hs[i], ops[i]);
  }

  /** In every run all books stay in order and uncrossed and every supply is constant. */
  lemma {:induction false} RunConserves(hs: seq<House>, ops: seq<Op>, results: seq<Result>, k: nat, x: Asset)
    requires Run(hs, ops, results) && CleanHouse(hs[0]) && k <= |ops|
    ensures CleanHouse(hs[k]) == true && Supply(hs[k].accounts, x) == Supply(hs[0].accounts, x)
  {
    if k > 0 {
      RunConserves(hs, ops, results, k - 1, x);
      assert Legal(hs[k - 1], ops[k - 1]);
      StepKeepsClean(hs[k - 1], ops[k - 1], hs[k], results[k - 1]);
      StepConserves(hs[k - 1], ops[k - 1], hs[k], results[k - 1], x);
    }
  }

  /** At each of the first `n` steps the account's slack bears it. */
  ghost predicate AlwaysEnough(hs: seq<House>, ops: seq<Op>, n: nat)
    requires n <= |ops| < |hs|
  {
    forall i {:trigger ops[i]} :: 0 <= i < n ==> Enough(hs[i], ops[i])
  }

  ghost predicate SolventUpTo(hs: seq<House>, n: nat)
    requires n <= |hs|
  {
    forall k {:trigger hs[k]} :: 0 <= k < n ==> Solvent(hs[k])
  }

  /** A run is solvent throughout exactly if at every order that fills in part and at every
      refund the account's slack suffices. */
  lemma {:induction false} RunSolventIff(hs: seq<House>, ops: seq<Op>, results: seq<Result>, n: nat)
    requires Run(hs, ops, results) && CleanHouse(hs[0]) && Solvent(hs[0]) && n <= |ops|
    ensures SolventUpTo(hs, n + 1) <==> AlwaysEnough(hs, ops, n)
  {
    if n > 0 {
      RunSolventIff(hs, ops, results, n - 1);
      if SolventUpTo(hs, n) {
        SplitSolvent(hs, n - 1);
        LastStepSolvent(hs, ops, results, n);
      }
      SplitLast(hs, ops, n);
    }
  }

  lemma {:induction false} LastStepSolvent(hs: seq<House>, ops: seq<Op>, results: seq<Result>, n: nat)
    requires Run(hs, ops, results) == true && 0 < n <= |ops| < |hs| && CleanHouse(hs[0]) == true
    requires Solvent(hs[n - 1]) == true
    ensures Solvent(hs[n]) == Enough(hs[n - 1], ops[n - 1])
  {
    StepAt(hs, ops, results, n - 1);
    RunConserves(hs, ops, results, n - 1, 0);
    StepSolventIff(hs[n - 1], ops[n - 1], hs[n], results[n - 1]);
  }

  lemma {:induction false} SplitLast(hs: seq<House>, ops: seq<Op>, n: nat)
    requires 0 < n <= |ops| < |hs|
    ensures SolventUpTo(hs, n + 1) == (SolventUpTo(hs, n) && Solvent(hs[n]))
    ensures AlwaysEnough(hs, ops, n) == (AlwaysEnough(hs, ops, n - 1) && Enough(hs[n - 1], ops[n - 1]))
  {
    SplitSolvent(hs, n);
    SplitEnough(hs, ops, n);
  }

  lemma {:induction false} SplitSolvent(hs: seq<House>, n: nat)
    requires n < |hs|
    ensures SolventUpTo(hs, n + 1) == (SolventUpTo(hs, n) && Solvent(hs[n]))
  {
  }

  lemma {:induction false} SplitEnough(hs: seq<House>, ops: seq<Op>, n: nat)
    requires 0 < n <= |ops| < |hs|
    ensures AlwaysEnough(hs, ops, n) == (AlwaysEnough(hs, ops, n - 1) && Enough(hs[n - 1], ops[n - 1]))
  {
  }

  /** While a run is solvent, no subtraction of any settlement underflows. */
  lemma {:induction false} RunNeverUnderflows(hs: seq<House>, ops: seq<Op>, results: seq<Result>, k: nat)
    requires Run(hs, ops, results) && CleanHouse(hs[0]) && k < |ops| && Solvent(hs[k])
    ensures Safe(hs[k].accounts, StepDeltas(hs[k], ops[k], results[k])) == true
  {
    RunConserves(hs, ops, results, k, 0);
    assert Legal(hs[k], ops[k]);
    StepSolventIff(hs[k], ops[k], hs[k + 1], results[k]);
  }

  /** In particular every run whose limit orders are whole on arrival, and whose cancels come
      with the right lot sizes, is solvent throughout. */
  lemma {:induction false} RunSolvent(hs: seq<House>, ops: seq<Op>, results: seq<Result>, k: nat)
    requires Run(hs, ops, results) && CleanHouse(hs[0]) && Solvent(hs[0]) && k <= |ops|
    requires forall i {:trigger ops[i]} :: 0 <= i < |ops| ==> Whole(hs[i], ops[i])
    ensures CleanHouse(hs[k]) == true && Solvent(hs[k]) == true
  {
    if k > 0 {
      RunSolvent(hs, ops, results, k - 1);
      StepAt(hs, ops, results, k - 1);
      StepKeepsClean(hs[k - 1], ops[k - 1], hs[k], results[k - 1]);
      WholeIsEnough(hs[k - 1], ops[k - 1]);
      StepSolventIff(hs[k - 1], ops[k - 1], hs[k], results[k - 1]);
    }
  }
}
