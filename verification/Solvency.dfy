/** Solvency and conservation of the clearing house, for single steps and whole runs. */
module Solvency {
  import opened LotMath
  import opened Orders
  import opened Sweeps
  import opened Matching
  import opened SpotMarkets
  import opened Balances
  import opened Settlement
  import opened ClearingHouse

  // ---------- the fills of the three kinds of orders ----------

  /** Fills that come off the front of a clean side without meeting the taker. */
  ghost predicate FairFills(side: Direction, list: seq<LimitOrder>, fills: seq<Fill>) {
    && Matches(list, fills) && FullButLast(fills) && NoSelf(fills)
    && forall i :: 0 <= i < |fills| ==> fills[i].order.dir == side && !Dead(fills[i].order)
  }

  lemma {:induction false} FairFromMatches(side: Direction, levels: seq<Level>, fills: seq<Fill>)
    requires BookOk(side, levels) && Clean(Flatten(levels)) && Matches(Flatten(levels), fills)
    requires forall i :: 0 <= i < |fills| ==> !fills[i].own
    ensures FairFills(side, Flatten(levels), fills) == true
  {
    FlattenSorted(side, levels);
    forall i | 0 <= i < |fills|
      ensures fills[i].order.dir == side && !Dead(fills[i].order) && fills[i].order.selfFilled == 0
    {
      assert fills[i].order == Flatten(levels)[i];
      assert fills[i].order in Flatten(levels);
    }
  }

  /** The fills of a limit order come off the front of the list, at acceptable prices, and
      none is marked as a self trade. */
  lemma {:induction false} LimitMatches(side: Direction, levels: seq<Level>, limit: nat, size: nat)
    requires BookOk(side, levels)
    ensures Matches(Flatten(levels), LimitFills(side, Flatten(levels), limit, size)) == true
    ensures forall i :: 0 <= i < |LimitFills(side, Flatten(levels), limit, size)| ==>
      && Acceptable(side, limit, LimitFills(side, Flatten(levels), limit, size)[i].order.price)
      && !LimitFills(side, Flatten(levels), limit, size)[i].own
  {
    var list := Flatten(levels);
    var take := TakeAcceptable(side, list, limit);
    FlattenSorted(side, levels);
    TakeAcceptableIsPrefix(side, list, limit);
    GreedyMatches(take, size, None);
    GreedyOrders(take, size, None);
  }

  lemma {:induction false} LimitFair(side: Direction, levels: seq<Level>, limit: nat, size: nat)
    requires BookOk(side, levels) && Clean(Flatten(levels))
    ensures FairFills(side, Flatten(levels), LimitFills(side, Flatten(levels), limit, size)) == true
    ensures forall i :: 0 <= i < |LimitFills(side, Flatten(levels), limit, size)| ==>
      Acceptable(side, limit, LimitFills(side, Flatten(levels), limit, size)[i].order.price)
  {
    var list := Flatten(levels);
    var take := TakeAcceptable(side, list, limit);
    FlattenSorted(side, levels);
    TakeAcceptableIsPrefix(side, list, limit);
    GreedyMatches(take, size, None);
    GreedyOrders(take, size, None);
    FairFromMatches(side, levels, Greedy(take, size, None));
  }

  lemma {:induction false} NoOwnLots(fills: seq<Fill>, p: MarketPrecision)
    requires forall i :: 0 <= i < |fills| ==> !fills[i].own
    ensures Lots(fills, true) == 0 && Quote(fills, true, p) == 0
  {
    if fills != [] {
      NoOwnLots(fills[1..], p);
    }
  }

  /** A limit buy pays at most its filled size at its limit price; so it never pays more
      than it locked. */
  lemma {:induction false} LimitBuyWithinLimit(levels: seq<Level>, limit: nat, size: nat, p: MarketPrecision)
    requires BookOk(Sell, levels)
    ensures var fills := LimitFills(Sell, Flatten(levels), limit, size);
      && Quote(fills, false, p) <= BaseToQuote(AllLots(fills), limit, p) <= BaseToQuote(size, limit, p)
      && Lots(fills, false) <= size
  {
    var take := TakeAcceptable(Sell, Flatten(levels), limit);
    var fills := Greedy(take, size, None);
    TakeAcceptableIsPrefix(Sell, Flatten(levels), limit);
    GreedyOrders(take, size, None);
    QuoteUpperBound(fills, limit, p);
    GreedyFillsMin(take, size, None);
    QuoteMono(AllLots(fills), size, limit, limit, p);
  }

  /** A limit sell matched by k makers earns at least its filled size at its limit price,
      less k - 1 quote lots of rounding. */
  lemma {:induction false} LimitSellEarns(levels: seq<Level>, limit: nat, size: nat, p: MarketPrecision)
    requires BookOk(Buy, levels)
    ensures var fills := LimitFills(Buy, Flatten(levels), limit, size);
      fills != [] ==> Quote(fills, false, p) + |fills| - 1 >= BaseToQuote(AllLots(fills), limit, p)
  {
    var take := TakeAcceptable(Buy, Flatten(levels), limit);
    var fills := Greedy(take, size, None);
    TakeAcceptableIsPrefix(Buy, Flatten(levels), limit);
    GreedyOrders(take, size, None);
    NoOwnLots(fills, p);
    if fills != [] {
      QuoteLowerBound(fills, limit, p);
    }
  }

  lemma {:induction false} SellMatches(levels: seq<Level>, size: nat, taker: Account)
    requires BookOk(Buy, levels)
    ensures Matches(Flatten(levels), SellFills(Flatten(levels), size, taker))
    ensures AllLots(SellFills(Flatten(levels), size, taker)) <= size
  {
    FlattenSorted(Buy, levels);
    GreedyMatches(Flatten(levels), size, Some(taker));
    GreedyFillsMin(Flatten(levels), size, Some(taker));
  }

  lemma {:induction false} MatchesConcat(a: seq<LimitOrder>, b: seq<LimitOrder>, f: seq<Fill>, g: seq<Fill>)
    requires Matches(a, f) && Matches(b, g)
    requires g != [] ==> |f| == |a| && AllFull(f)
    ensures Matches(a + b, f + g)
  {
    if g == [] {
      assert f + g == f;
    }
  }

  lemma {:induction false} BuyMatches(levels: seq<Level>, quote: nat, taker: Account, p: MarketPrecision)
    requires BookOk(Sell, levels) && Priced(levels)
    ensures Matches(Flatten(levels), BuyFills(levels, quote, taker, p))
  {
    if levels != [] && quote > 0 && QuoteToBase(quote, Top(levels).price, p) > 0 {
      var base := QuoteToBase(quote, Top(levels).price, p);
      var live := Live(Top(levels).orders);
      var g := Greedy(live, base, Some(taker));
      var left := Monus(quote, AllQuote(g, p));
      BookOkPrefix(Sell, levels, |levels| - 1);
      BuyMatches(Below(levels), left, taker, p);
      TopPositive(levels);
      GreedyMatches(live, base, Some(taker));
      if Consumed(Top(levels).orders, base) {
        GreedyCovers(live, base, Some(taker));
        GreedyAllFull(live, base, Some(taker));
        MatchesConcat(live, Flatten(Below(levels)), g, BuyFills(Below(levels), left, taker, p));
      } else {
        MatchesConcat(live, Flatten(Below(levels)), g, []);
        assert g + [] == g;
      }
    }
  }

  lemma {:induction false} TopPositive(levels: seq<Level>)
    requires BookOk(Sell, levels) && levels != []
    ensures AllLeft(Live(Top(levels).orders))
  {
    TopEntries(Sell, levels);
    LivePositive(Sell, Top(levels).price, Top(levels).orders);
  }

  // ---------- one step keeps cover ----------

  lemma {:induction false} Assemble(h: House, k: nat, h': House, dir: Direction)
    requires k < |h.markets| && |h'.markets| == |h.markets| && h'.markets == h.markets[k := h'.markets[k]]
    requires SameMarket(h.markets[k], h'.markets[k])
    requires Flatten(Side(h'.markets[k], Opposite(dir))) == Flatten(Side(h.markets[k], Opposite(dir)))
    ensures var m, m' := h.markets[k], h'.markets[k];
      Solvent(h') == CoversBoth(h'.accounts, Pledges(m, Flatten(Side(m', dir))),
                                Pledges(m, Flatten(Side(m, Opposite(dir)))) + Others(h.markets, k))
  {
    var m, m' := h.markets[k], h'.markets[k];
    SplitCover(h', k, dir);
    OthersSame(h.markets, k, m');
    PledgesSame(m, m', Flatten(Side(m', dir)));
    PledgesSame(m, m', Flatten(Side(m', Opposite(dir))));
  }

  lemma {:induction false} TouchKeeps(h: House, a: Account, ps: seq<Pledge>)
    requires Covers(h.accounts, ps)
    ensures Covers(Touch(h.accounts, a), ps)
    ensures forall x :: Supply(Touch(h.accounts, a), x) == Supply(h.accounts, x)
  {
    var next := Touch(h.accounts, a);
    forall b, x ensures CoversAt(next, ps, b, x) {
      assert CoversAt(h.accounts, ps, b, x);
      assert Entries(next, b) == Entries(h.accounts, b);
    }
    forall x ensures Supply(next, x) == Supply(h.accounts, x) {
      SupplyTouch(h.accounts, a, x);
    }
  }

  lemma {:induction false} SupplyTouch(accounts: Accounts, a: Account, x: Asset)
    ensures Supply(Touch(accounts, a), x) == Supply(accounts, x)
  {
    SupplyWithout(Touch(accounts, a), a, x);
    assert Touch(accounts, a) - {a} == accounts - {a};
    if a in accounts {
      SupplyWithout(accounts, a, x);
    } else {
      assert accounts - {a} == accounts;
    }
  }

  lemma {:induction false} ZeroDeltaKeeps(accounts: Accounts, a: Account, y: Asset, ps: seq<Pledge>)
    requires Covers(accounts, ps)
    ensures Covers(Apply(accounts, Delta(a, y, 0, 0)), ps)
    ensures forall x :: Supply(Apply(accounts, Delta(a, y, 0, 0)), x) == Supply(accounts, x)
  {
    var d := Delta(a, y, 0, 0);
    forall b, x ensures CoversAt(Apply(accounts, d), ps, b, x) {
      assert CoversAt(accounts, ps, b, x);
      ApplyEffect(accounts, d, b, x);
    }
    forall x ensures Supply(Apply(accounts, d), x) == Supply(accounts, x) {
      SupplyApply(accounts, d, x);
    }
  }

  /** A limit order rested: what the step says about the book and the accounts. */
  ghost predicate Rests(h: House, o: LimitOrder, h': House)
    requires o.market < |h.markets| == |h'.markets|
  {
    var mk, mk' := h.markets[o.market], h'.markets[o.market];
    && h'.markets == h.markets[o.market := mk'] && SameMarket(mk, mk')
    && LockOf(mk, o) <= Available(h.accounts, o.account, OutAsset(mk, o.dir))
    && Flatten(Side(mk', o.dir)) == Enqueue(o.dir, Flatten(Side(mk, o.dir)), o)
    && Side(mk', Opposite(o.dir)) == Side(mk, Opposite(o.dir))
    && h'.accounts == ApplyAll(h.accounts, [LockDelta(mk, o)])
  }

  lemma {:induction false} RestingFacts(h: House, o: LimitOrder, h': House)
    requires o.filled == 0 && o.selfFilled == 0 && LimitStep(h, o, h', Resting)
    ensures o.market < |h.markets| == |h'.markets| && Rests(h, o, h')
  {
  }

  /** Locked funds for an order on its way in cover it once it is queued. */
  lemma {:induction false} QueuedCover(
      mk: Market, accounts: Accounts, own: seq<LimitOrder>, o: LimitOrder, rest: seq<Pledge>)
    requires o.filled == 0
    requires CoversBoth(accounts, Pledges(mk, own),
                        [Pledge(o.account, OutAsset(mk, o.dir), LockOf(mk, o))] + rest) == true
    ensures CoversBoth(accounts, Pledges(mk, Enqueue(o.dir, own, o)), rest) == true
  {
    var p := Pledge(o.account, OutAsset(mk, o.dir), LockOf(mk, o));
    forall a, y ensures CoversBothAt(accounts, Pledges(mk, Enqueue(o.dir, own, o)), rest, a, y) {
      assert CoversBothAt(accounts, Pledges(mk, own), [p] + rest, a, y);
      ClaimEnqueue(mk, o.dir, own, o, a, y);
      assert ([p] + rest)[1..] == rest;
    }
  }

  /** A limit order that does not cross locks exactly what it pledges. */
  lemma {:induction false} RestingSolvent(h: House, o: LimitOrder, h': House)
    requires Solvent(h) == true && o.filled == 0
    requires o.market < |h.markets| == |h'.markets| && Rests(h, o, h')
    ensures Solvent(h') == true
    ensures Safe(h.accounts, [LockDelta(h.markets[o.market], o)]) == true
  {
    var k, mk := o.market, h.markets[o.market];
    var own := Flatten(Side(mk, o.dir));
    var rest := Pledges(mk, Flatten(Side(mk, Opposite(o.dir)))) + Others(h.markets, k);
    assert CoversBoth(h.accounts, Pledges(mk, own), rest) == true by {
      SplitCover(h, k, o.dir);
    }
    LockAndQueue(mk, h.accounts, own, o, rest);
    Assemble(h, k, h', o.dir);
  }

  lemma {:induction false} LockAndQueue(
      mk: Market, accounts: Accounts, own: seq<LimitOrder>, o: LimitOrder, rest: seq<Pledge>)
    requires o.filled == 0 && LockOf(mk, o) <= Available(accounts, o.account, OutAsset(mk, o.dir))
    requires CoversBoth(accounts, Pledges(mk, own), rest) == true
    ensures Safe(accounts, [LockDelta(mk, o)]) == true
    ensures CoversBoth(ApplyAll(accounts, [LockDelta(mk, o)]), Pledges(mk, Enqueue(o.dir, own, o)), rest) == true
  {
    LockTaken(accounts, Pledges(mk, own), rest, o.account, OutAsset(mk, o.dir), LockOf(mk, o));
    ApplyOne(accounts, LockDelta(mk, o));
    QueuedCover(mk, Apply(accounts, LockDelta(mk, o)), own, o, rest);
  }

  lemma {:induction false} SellOutAmount(a: nat, b: nat, p: MarketPrecision)
    requires a <= b
    ensures Scale(a, p.baseLot) <= Scale(b, p.baseLot) && Scale(a, p.quoteLot) <= Scale(b, p.quoteLot)
  {
    ScaleMono(a, b, p.baseLot, p.baseLot);
    ScaleMono(a, b, p.quoteLot, p.quoteLot);
  }

  /** The taker of a limit order pays at most its lock. */
  lemma {:induction false} LimitPaysWithinLock(mk: Market, o: LimitOrder, r: Report)
    requires MarketOk(mk) && r.tally == TallyOf(TargetFills(mk, o), mk.prec)
    ensures 0 - TakerDeltas(mk, o.dir, o.account, LockOf(mk, o), r.tally)[0].total <= LockOf(mk, o)
  {
    var fills := TargetFills(mk, o);
    if o.dir == Buy {
      LimitBuyWithinLimit(mk.asks, o.price, o.base, mk.prec);
      SellOutAmount(Quote(fills, false, mk.prec), BaseToQuote(o.base, o.price, mk.prec), mk.prec);
    } else {
      GreedyFillsMin(TakeAcceptable(Buy, Flatten(mk.bids), o.price), o.base, None);
      SellOutAmount(Lots(fills, false), o.base, mk.prec);
    }
  }

  lemma {:induction false} ExecutedFacts(h: House, o: LimitOrder, h': House, r: Report)
    requires o.filled == 0 && o.selfFilled == 0 && LimitStep(h, o, h', Executed(r))
    ensures o.market < |h.markets| == |h'.markets| && h'.markets == h.markets[o.market := h'.markets[o.market]]
    ensures var mk, mk' := h.markets[o.market], h'.markets[o.market];
      var fills, list := TargetFills(mk, o), Flatten(Side(mk, Opposite(o.dir)));
      && SameMarket(mk, mk') && LockOf(mk, o) <= Available(h.accounts, o.account, OutAsset(mk, o.dir))
      && Live(r.filled) == DoneOrders(fills) && r.residual == ResidualOf(fills) && r.tally == TallyOf(fills, mk.prec)
      && |fills| <= |list| && Flatten(Side(mk', Opposite(o.dir))) == Leftover(list, fills)
      && AllLots(fills) <= o.base
      && (AllLots(fills) == o.base ==> Side(mk', o.dir) == Side(mk, o.dir))
      && (AllLots(fills) < o.base ==>
            Flatten(Side(mk', o.dir)) == Enqueue(o.dir, Flatten(Side(mk, o.dir)), o.(filled := AllLots(fills))))
      && h'.accounts == ApplyAll(h.accounts, LimitDeltas(mk, o, Some(r)))
  {
  }

  /** A crossing limit order is settled without underflow, and everything but its own
      remainder stays covered. */
  lemma {:induction false} CrossingCover(h: House, o: LimitOrder, h': House, r: Report)
    requires Solvent(h) && o.filled == 0 && o.selfFilled == 0 && o.market < |h.markets|
      && CleanMarket(h.markets[o.market])
    requires LimitStep(h, o, h', Executed(r))
    ensures Safe(h.accounts, LimitDeltas(h.markets[o.market], o, Some(r))) == true
    ensures var mk := h.markets[o.market];
      CoversBoth(h'.accounts, Pledges(mk, Flatten(Side(h'.markets[o.market], Opposite(o.dir)))),
                 Pledges(mk, Flatten(Side(mk, o.dir))) + Others(h.markets, o.market)) == true
  {
    var k, mk, opp := o.market, h.markets[o.market], Opposite(o.dir);
    var rest := Pledges(mk, Flatten(Side(mk, o.dir))) + Others(h.markets, k);
    ExecutedFacts(h, o, h', r);
    assert CoversBoth(h.accounts, Pledges(mk, Flatten(Side(mk, opp))), rest) == true by {
      SplitCover(h, k, opp);
      OppositeTwice(o.dir);
    }
    LimitFair(opp, Side(mk, opp), o.price, o.base);
    LimitPaysWithinLock(mk, o, r);
    MatchedCover(mk, o, h.accounts, Flatten(Side(mk, opp)), TargetFills(mk, o), r, rest);
  }

  lemma {:induction false} MatchedCover(
      mk: Market, o: LimitOrder, accounts: Accounts, list: seq<LimitOrder>, fills: seq<Fill>,
                                        r: Report, rest: seq<Pledge>)
    requires mk.base != mk.quote && FairFills(Opposite(o.dir), list, fills)
    requires LockOf(mk, o) <= Available(accounts, o.account, OutAsset(mk, o.dir))
    requires 0 - TakerDeltas(mk, o.dir, o.account, LockOf(mk, o), r.tally)[0].total <= LockOf(mk, o)
    requires Live(r.filled) == DoneOrders(fills) && r.residual == ResidualOf(fills)
    requires CoversBoth(accounts, Pledges(mk, list), rest) == true
    ensures Safe(accounts, LimitDeltas(mk, o, Some(r))) == true
    ensures CoversBoth(ApplyAll(accounts, LimitDeltas(mk, o, Some(r))), Pledges(mk, Leftover(list, fills)),
                       rest) == true
  {
    assert LimitDeltas(mk, o, Some(r)) == [LockDelta(mk, o)] + SettleDeltas(mk, o.dir, o.account, LockOf(mk, o), r);
    SettledCover(mk, o.dir, accounts, list, fills, r, rest, o.account, LockOf(mk, o));
  }

  /** The order's market exists and its account can lock the order's funds. */
  ghost predicate Funded(h: House, o: LimitOrder) {
    o.market < |h.markets|
    && LockOf(h.markets[o.market], o) <= Available(h.accounts, o.account, OutAsset(h.markets[o.market], o.dir))
  }

  /** The order is taken, meets the best price, and is larger than what it can match. */
  ghost predicate FillsInPart(h: House, o: LimitOrder) {
    && Funded(h, o) && Crosses(h.markets[o.market], o.dir, o.price)
    && AllLots(TargetFills(h.markets[o.market], o)) < o.base
  }

  /** The order is turned away, fills completely on arrival, or rests untouched. */
  ghost predicate WholeOnArrival(h: House, o: LimitOrder) { !FillsInPart(h, o) }

  /** The deltas a limit order step applies. */
  function LimitStepDeltas(h: House, o: LimitOrder, out: Outcome): seq<Delta> {
    if out == Refused || o.market >= |h.markets| then [] else LimitDeltas(h.markets[o.market], o, ReportOf(out))
  }

  lemma {:induction false} LimitKeepsSolvent(h: House, o: LimitOrder, h': House, out: Outcome)
    requires CleanHouse(h) && Solvent(h) && o.filled == 0 && o.selfFilled == 0
    requires LimitStep(h, o, h', out) && WholeOnArrival(h, o)
    ensures Solvent(h')
    ensures Safe(h.accounts, LimitStepDeltas(h, o, out)) == true
  {
    CoversNonNegative(h.accounts, HousePledges(h.markets));
    if o.market >= |h.markets| {
      TouchKeeps(h, o.account, HousePledges(h.markets));
    } else if out == Refused {
      ZeroDeltaKeeps(h.accounts, o.account, OutAsset(h.markets[o.market], o.dir), HousePledges(h.markets));
    } else if out == Resting {
      RestingFacts(h, o, h');
      RestingSolvent(h, o, h');
    } else {
      assert CleanMarket(h.markets[o.market]);
      CrossingCover(h, o, h', out.report);
      OppositeTwice(o.dir);
      Assemble(h, o.market, h', Opposite(o.dir));
    }
  }

  /** Account slack covers the remainder that a partly filled order rests without a lock. */
  ghost predicate LimitEnough(h: House, o: LimitOrder)
    requires o.filled == 0 && o.selfFilled == 0
  {
    FillsInPart(h, o) ==>
      Slack(h, o.account, OutAsset(h.markets[o.market], o.dir))
      >= PledgeOf(h.markets[o.market], Remainder(h.markets[o.market], o)).amount
  }

  /** A limit order, whatever becomes of it, underflows nothing, and leaves the house solvent
      exactly if it does not rest an uncovered remainder. */
  lemma {:induction false} LimitSolventIff(h: House, o: LimitOrder, h': House, out: Outcome)
    requires CleanHouse(h) == true && Solvent(h) == true && o.filled == 0 && o.selfFilled == 0
    requires LimitStep(h, o, h', out) == true
    ensures Solvent(h') <==> LimitEnough(h, o)
    ensures Safe(h.accounts, LimitStepDeltas(h, o, out)) == true
  {
    if FillsInPart(h, o) {
      assert out.Executed? && CleanMarket(h.markets[o.market]);
      CrossingCover(h, o, h', out.report);
      PartialRestSolvent(h, o, h', out.report);
    } else {
      LimitKeepsSolvent(h, o, h', out);
    }
  }

  lemma {:induction false} OppositeTwice(dir: Direction)
    ensures Opposite(Opposite(dir)) == dir
  {
  }

  // ---------- a limit order that rests a remainder ----------

  function Locked(accounts: Accounts, a: Account, x: Asset): int { Total(accounts, a, x) - Available(accounts, a, x) }

  /** Locked funds beyond what the resting orders would hand back. */
  function Slack(h: House, a: Account, x: Asset): int {
    Locked(h.accounts, a, x) - Claim(HousePledges(h.markets), a, x)
  }

  /** What a maker receives is spendable at once. */
  lemma {:induction false} FillsKeepLocked(mk: Market, dir: Direction, accounts: Accounts, fills: seq<Fill>, a: Account)
    requires mk.base != mk.quote
    ensures Locked(ApplyAll(accounts, FillDeltas(mk, dir, fills)), a, InAsset(mk, dir))
      == Locked(accounts, a, InAsset(mk, dir))
    decreases |fills|
  {
    if fills != [] {
      var ds := MakerDeltas(mk, dir, fills[0].order.account, fills[0].lots, fills[0].order.price);
      var mid := Apply(accounts, ds[0]);
      var end := Apply(mid, ds[1]);
      assert ds == [ds[0], ds[1]];
      ApplyPair(accounts, ds[0], ds[1]);
      ApplyEffect(accounts, ds[0], a, InAsset(mk, dir));
      ApplyEffect(mid, ds[1], a, InAsset(mk, dir));
      FillsKeepLocked(mk, dir, end, fills[1..], a);
      ApplyAppend(accounts, ds, FillDeltas(mk, dir, fills[1..]));
    }
  }

  /** The whole lock is released on any execution, so the taker's locked funds end where
      they began. */
  lemma {:induction false} ExecutionUnlocks(mk: Market, o: LimitOrder, accounts: Accounts, fills: seq<Fill>, r: Report)
    requires mk.base != mk.quote && FullButLast(fills) && NoSelf(fills)
    requires forall i :: 0 <= i < |fills| ==> !Dead(fills[i].order)
    requires Live(r.filled) == DoneOrders(fills) && r.residual == ResidualOf(fills)
    ensures Locked(ApplyAll(accounts, LimitDeltas(mk, o, Some(r))), o.account, OutAsset(mk, o.dir))
         == Locked(accounts, o.account, OutAsset(mk, o.dir))
  {
    var opp, a, x := Opposite(o.dir), o.account, OutAsset(mk, o.dir);
    var d, t := LockDelta(mk, o), TakerDeltas(mk, o.dir, o.account, LockOf(mk, o), r.tally);
    var g := FillDeltas(mk, opp, fills);
    DoneSkipsDead(mk, opp, r.filled);
    DoneAsFills(mk, opp, fills);
    AppendAssoc(t, DoneDeltas(mk, opp, r.filled), ResidualDeltas(mk, opp, r.residual));
    assert LimitDeltas(mk, o, Some(r)) == [d] + (t + g);
    var s1 := Apply(accounts, d);
    var s2 := Apply(s1, t[0]);
    var s3 := Apply(s2, t[1]);
    assert t == [t[0], t[1]];
    ApplyOne(accounts, d);
    ApplyPair(s1, t[0], t[1]);
    ApplyAppend(accounts, [d], t + g);
    ApplyAppend(s1, t, g);
    ApplyEffect(accounts, d, a, x);
    ApplyEffect(s1, t[0], a, x);
    ApplyEffect(s2, t[1], a, x);
    FillsKeepLocked(mk, opp, s3, fills, a);
  }

  lemma {:induction false} ClaimOtherAsset(mk: Market, list: seq<LimitOrder>, side: Direction, a: Account)
    requires mk.base != mk.quote && forall i :: 0 <= i < |list| ==> list[i].dir == side
    ensures Claim(Pledges(mk, list), a, OutAsset(mk, Opposite(side))) == 0
  {
    if list != [] {
      ClaimOtherAsset(mk, list[1..], side, a);
      assert [list[0]] + list[1..] == list;
      ClaimHead(mk, list[0], list[1..], a, OutAsset(mk, Opposite(side)));
    }
  }

  lemma {:induction false} SideClaimsOther(mk: Market, side: Direction, levels: seq<Level>, a: Account)
    requires mk.base != mk.quote && BookOk(side, levels)
    ensures Claim(Pledges(mk, Flatten(levels)), a, OutAsset(mk, Opposite(side))) == 0
  {
    FlattenSorted(side, levels);
    var list := Flatten(levels);
    assert forall i :: 0 <= i < |list| ==> list[i] in list;
    ClaimOtherAsset(mk, list, side, a);
  }

  /** The part of a limit order that rests after it executed. */
  function Remainder(mk: Market, o: LimitOrder): LimitOrder
    requires o.filled == 0 && o.selfFilled == 0
  {
    o.(filled := Min(AllLots(TargetFills(mk, o)), o.base))
  }

  /** A limit order that executes in part leaves its remainder without a lock: the house
      stays solvent exactly if the account's slack already covered that remainder. */
  lemma {:induction false} PartialRestSolvent(h: House, o: LimitOrder, h': House, r: Report)
    requires CleanHouse(h) && Solvent(h) && o.filled == 0 && o.selfFilled == 0
    requires LimitStep(h, o, h', Executed(r)) && o.market < |h.markets|
    requires AllLots(TargetFills(h.markets[o.market], o)) < o.base
    ensures Solvent(h') <==>
      Slack(h, o.account, OutAsset(h.markets[o.market], o.dir))
      >= PledgeOf(h.markets[o.market], Remainder(h.markets[o.market], o)).amount
  {
    var k, mk, mk', opp := o.market, h.markets[o.market], h'.markets[o.market], Opposite(o.dir);
    var rest := Remainder(mk, o);
    var x := OutAsset(mk, o.dir);
    assert CleanMarket(h.markets[k]);
    ExecutedFacts(h, o, h', r);
    CrossingCover(h, o, h', r);
    assert Locked(h'.accounts, o.account, x) == Locked(h.accounts, o.account, x) by {
      LimitFair(opp, Side(mk, opp), o.price, o.base);
      ExecutionUnlocks(mk, o, h.accounts, TargetFills(mk, o), r);
    }
    OppositeTwice(o.dir);
    assert Claim(Pledges(mk, Flatten(Side(mk', opp))), o.account, x) == 0 by {
      SweptSideOk(h, o, h', r);
      SideClaimsOther(mk, opp, Side(mk', opp), o.account);
    }
    assert Claim(HousePledges(h.markets), o.account, x)
        == Claim(Pledges(mk, Flatten(Side(mk, o.dir))) + Others(h.markets, k), o.account, x) by {
      SideClaimsOther(mk, opp, Side(mk, opp), o.account);
      HouseClaim(h.markets, k, o.dir, o.account, x);
      ClaimAppend(Pledges(mk, Flatten(Side(mk, o.dir))), Others(h.markets, k), o.account, x);
    }
    RestClaims(h, o, h', rest);
    PartialIff(h, o, h', rest);
  }

  lemma {:induction false} SweptSideOk(h: House, o: LimitOrder, h': House, r: Report)
    requires o.filled == 0 && o.selfFilled == 0 && LimitStep(h, o, h', Executed(r))
    ensures o.market < |h.markets| == |h'.markets|
    ensures BookOk(Opposite(o.dir), Side(h'.markets[o.market], Opposite(o.dir))) == true
  {
  }

  /** All claims after the step: those before it on the other books, plus the remainder. */
  lemma {:induction false} RestClaims(h: House, o: LimitOrder, h': House, rest: LimitOrder)
    requires o.market < |h.markets| == |h'.markets| && h'.markets == h.markets[o.market := h'.markets[o.market]]
    requires SameMarket(h.markets[o.market], h'.markets[o.market]) && rest.dir == o.dir
    requires Flatten(Side(h'.markets[o.market], o.dir))
      == Enqueue(o.dir, Flatten(Side(h.markets[o.market], o.dir)), rest)
    ensures var mk, mk' := h.markets[o.market], h'.markets[o.market];
      forall a, x {:trigger Claim(HousePledges(h'.markets), a, x)} ::
        Claim(HousePledges(h'.markets), a, x)
        == Claim(Pledges(mk, Flatten(Side(mk', Opposite(o.dir)))), a, x)
           + Claim(Pledges(mk, Flatten(Side(mk, o.dir))) + Others(h.markets, o.market), a, x)
           + (if rest.account == a && OutAsset(mk, o.dir) == x then PledgeOf(mk, rest).amount else 0)
  {
    var k, mk, mk' := o.market, h.markets[o.market], h'.markets[o.market];
    OthersSame(h.markets, k, mk');
    PledgesSame(mk, mk', Flatten(Side(mk', o.dir)));
    PledgesSame(mk, mk', Flatten(Side(mk', Opposite(o.dir))));
    forall a, x
      ensures Claim(HousePledges(h'.markets), a, x)
           == Claim(Pledges(mk, Flatten(Side(mk', Opposite(o.dir)))), a, x)
              + Claim(Pledges(mk, Flatten(Side(mk, o.dir))) + Others(h.markets, k), a, x)
              + (if rest.account == a && OutAsset(mk, o.dir) == x then PledgeOf(mk, rest).amount else 0)
    {
      HouseClaim(h'.markets, k, o.dir, a, x);
      ClaimEnqueue(mk, o.dir, Flatten(Side(mk, o.dir)), rest, a, x);
      ClaimAppend(Pledges(mk, Flatten(Side(mk, o.dir))), Others(h.markets, k), a, x);
    }
  }

  lemma {:induction false} PartialIff(h: House, o: LimitOrder, h': House, rest: LimitOrder)
    requires o.market < |h.markets| == |h'.markets| && rest.account == o.account
    requires var mk, mk' := h.markets[o.market], h'.markets[o.market];
      var x := OutAsset(mk, o.dir);
      && CoversBoth(h'.accounts, Pledges(mk, Flatten(Side(mk', Opposite(o.dir)))),
                    Pledges(mk, Flatten(Side(mk, o.dir))) + Others(h.markets, o.market)) == true
      && (forall a, y {:trigger Claim(HousePledges(h'.markets), a, y)} ::
            Claim(HousePledges(h'.markets), a, y)
            == Claim(Pledges(mk, Flatten(Side(mk', Opposite(o.dir)))), a, y)
               + Claim(Pledges(mk, Flatten(Side(mk, o.dir))) + Others(h.markets, o.market), a, y)
               + (if o.account == a && x == y then PledgeOf(mk, rest).amount else 0))
      && Claim(Pledges(mk, Flatten(Side(mk', Opposite(o.dir)))), o.account, x) == 0
      && Claim(HousePledges(h.markets), o.account, x)
         == Claim(Pledges(mk, Flatten(Side(mk, o.dir))) + Others(h.markets, o.market), o.account, x)
      && Locked(h'.accounts, o.account, x) == Locked(h.accounts, o.account, x)
    ensures Solvent(h') <==>
      Slack(h, o.account, OutAsset(h.markets[o.market], o.dir)) >= PledgeOf(h.markets[o.market], rest).amount
  {
    var mk, mk' := h.markets[o.market], h'.markets[o.market];
    var x := OutAsset(mk, o.dir);
    var ps := Pledges(mk, Flatten(Side(mk', Opposite(o.dir))));
    var qs := Pledges(mk, Flatten(Side(mk, o.dir))) + Others(h.markets, o.market);
    forall a, y ensures CoversAt(h'.accounts, HousePledges(h'.markets), a, y)
      <==> (o.account == a && x == y ==> Slack(h, a, x) >= PledgeOf(mk, rest).amount)
    {
      assert CoversBothAt(h'.accounts, ps, qs, a, y);
    }
    assert CoversAt(h'.accounts, HousePledges(h'.markets), o.account, x)
      <==> Slack(h, o.account, x) >= PledgeOf(mk, rest).amount;
  }
}
