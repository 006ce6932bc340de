/** What self trades do to the supply of the two assets, exactly, over whole runs. */
module SelfTrades {
  import opened LotMath
  import opened Orders
  import opened BookEdits
  import opened Sweeps
  import opened Matching
  import opened SpotMarkets
  import opened Balances
  import opened Settlement
  import opened ClearingHouse
  import opened Solvency
  import opened HouseRuns

  // ---------- one settlement ----------

  /** Quote lots that settling a completely matched maker books beyond the fill. */
  function Excess(f: Fill, p: MarketPrecision): nat {
    var whole := SettledLots(Done(f));
    QuoteMono(f.lots, whole, f.order.price, f.order.price, p);
    BaseToQuote(whole, f.order.price, p) - if f.own then 0 else BaseToQuote(f.lots, f.order.price, p)
  }

  function SelfQuote(fills: seq<Fill>, p: MarketPrecision): nat {
    if fills == [] then 0 else (if Full(fills[0]) then Excess(fills[0], p) else 0) + SelfQuote(fills[1..], p)
  }

  /** The makers are settled for the quote of the traded lots plus that excess. */
  lemma {:induction false} QuoteExcess(fills: seq<Fill>, p: MarketPrecision)
    requires FullButLast(fills)
    ensures MakerQuote(DoneOrders(fills), p) + ResidualQuote(ResidualOf(fills), p)
         == Quote(fills, false, p) + SelfQuote(fills, p)
  {
    if fills != [] {
      var f, rest := fills[0], fills[1..];
      assert FullButLast(rest);
      NoLotsNoQuote(f.order.price, p);
      if Full(f) {
        assert DoneOrders(fills)[1..] == DoneOrders(rest);
        QuoteExcess(rest, p);
        assert rest != [] ==> fills[|fills| - 1] == rest[|rest| - 1];
        assert ResidualOf(fills) == ResidualOf(rest);
      } else {
        assert rest == [];
      }
    }
  }

  /** What the settlement of these fills adds to the supply of an asset: a sell mints base and
      burns quote for what completely matched makers had traded with their owners, a buy the
      other way round. */
  function SupplyChange(mk: Market, dir: Direction, fills: seq<Fill>, x: Asset): int {
    if x == mk.base then -Signed(dir, Scale(SelfPart(DoneOrders(fills)), mk.prec.baseLot))
    else if x == mk.quote then Signed(dir, Scale(SelfQuote(fills, mk.prec), mk.prec.quoteLot))
    else 0
  }

  lemma {:induction false} SettleChange(
      mk: Market, dir: Direction, a: Account, lock: nat, fills: seq<Fill>, r: Report, x: Asset)
    requires mk.base != mk.quote && FullButLast(fills)
    requires Live(r.filled) == DoneOrders(fills) && (forall o :: o in DoneOrders(fills) ==> !Dead(o))
    requires r.residual == ResidualOf(fills) && r.tally == TallyOf(fills, mk.prec)
    ensures Net(SettleDeltas(mk, dir, a, lock, r), x) == SupplyChange(mk, dir, fills, x)
  {
    if x == mk.base {
      SettleMints(mk, dir, a, lock, fills, r);
    } else if x == mk.quote {
      SettleNet(mk, dir, a, lock, r, DoneOrders(fills));
      QuoteExcess(fills, mk.prec);
      ScaleAdd(Quote(fills, false, mk.prec), SelfQuote(fills, mk.prec), mk.prec.quoteLot);
    } else {
      OtherAssets(mk, dir, a, lock, r, x);
    }
  }

  lemma {:induction false} LockAndSettle(mk: Market, dir: Direction, a: Account, lock: nat, fills: seq<Fill>, r: Report,
      accounts: Accounts, x: Asset)
    requires mk.base != mk.quote && FullButLast(fills)
    requires Live(r.filled) == DoneOrders(fills) && (forall o :: o in DoneOrders(fills) ==> !Dead(o))
    requires r.residual == ResidualOf(fills) && r.tally == TallyOf(fills, mk.prec)
    ensures Supply(ApplyAll(accounts, [Delta(a, OutAsset(mk, dir), 0 - lock, 0)]
                                   + SettleDeltas(mk, dir, a, lock, r)), x)
         == Supply(accounts, x) + SupplyChange(mk, dir, fills, x)
  {
    var d, ds := Delta(a, OutAsset(mk, dir), 0 - lock, 0), SettleDeltas(mk, dir, a, lock, r);
    SettleChange(mk, dir, a, lock, fills, r, x);
    SupplyApplyAll(accounts, [d] + ds, x);
    NetAppend([d], ds, x);
    assert [d][1..] == [];
    assert Net([d], x) == 0;
  }

  // ---------- the fills of a well-formed side ----------

  lemma {:induction false} DoneLive(list: seq<LimitOrder>, fills: seq<Fill>)
    requires Matches(list, fills) && forall o :: o in list ==> !Dead(o)
    ensures FullButLast(fills) && forall o :: o in DoneOrders(fills) ==> !Dead(o)
    decreases |fills|
  {
    if fills != [] {
      assert list[0] in list;
      assert forall i :: 0 <= i < |fills[1..]| ==> fills[1..][i] == fills[i + 1] && list[1..][i] == list[i + 1];
      DoneLive(list[1..], fills[1..]);
    }
  }

  lemma {:induction false} LimitSettles(mk: Market, o: LimitOrder)
    requires MarketOk(mk)
    ensures FullButLast(TargetFills(mk, o)) && forall x :: x in DoneOrders(TargetFills(mk, o)) ==> !Dead(x)
  {
    var opp := Opposite(o.dir);
    LimitMatches(opp, Side(mk, opp), o.price, o.base);
    FlattenSorted(opp, Side(mk, opp));
    DoneLive(Flatten(Side(mk, opp)), TargetFills(mk, o));
  }

  lemma {:induction false} MarketSettles(mk: Market, dir: Direction, size: nat, a: Account)
    requires MarketOk(mk) && (dir == Buy ==> Priced(mk.asks))
    ensures FullButLast(MarketFills(mk, dir, size, a))
    ensures forall x :: x in DoneOrders(MarketFills(mk, dir, size, a)) ==> !Dead(x)
  {
    var opp := Opposite(dir);
    if dir == Sell {
      SellMatches(mk.bids, size, a);
    } else {
      BuyMatches(mk.asks, size, a, mk.prec);
    }
    FlattenSorted(opp, Side(mk, opp));
    DoneLive(Flatten(Side(mk, opp)), MarketFills(mk, dir, size, a));
  }

  // ---------- steps ----------

  /** All books are in order and uncrossed, and trade two assets. */
  ghost predicate PairedBooks(h: House) {
    forall k {:trigger h.markets[k]} :: 0 <= k < |h.markets| ==> PairedBook(h.markets[k])
  }

  ghost predicate PairedBook(m: Market) { MarketOk(m) && m.base != m.quote }

  /** What keeps the books in order, self trades allowed: fresh ids and positive sizes, priced
      asks and funded market buys, and safe cancels with a current copy. */
  ghost predicate Allowed(h: House, op: Op) {
    && Formed(h, op)
    && match op
       case PlaceLimit(o) => Funded(h, o) ==> NewOrder(h.markets[o.market], o)
       case PlaceMarket(m, dir, size, a) => m < |h.markets| ==> BuyDefined(h.accounts, h.markets[m], dir, size, a)
       case CancelOp(o, p) => o.market < |h.markets| ==>
         var list := Flatten(Side(h.markets[o.market], o.dir)); CurrentCopy(list, o) && CancelSafe(list, o)
  }

  lemma {:induction false} PairedReplaced(h: House, k: nat, h': House)
    requires PairedBooks(h) && k < |h.markets| == |h'.markets| && h'.markets == h.markets[k := h'.markets[k]]
    requires MarketOk(h'.markets[k]) && SameMarket(h.markets[k], h'.markets[k])
    ensures PairedBooks(h') == true
  {
    assert PairedBook(h.markets[k]);
    forall i | 0 <= i < |h'.markets| ensures PairedBook(h'.markets[i]) {
      assert i != k ==> h'.markets[i] == h.markets[i];
    }
  }

  /** What the step adds to the supply of an asset, known before it. */
  ghost function StepChange(h: House, op: Op, x: Asset): int
    requires Formed(h, op)
  {
    match op
    case PlaceLimit(o) =>
      if Funded(h, o) && Crosses(h.markets[o.market], o.dir, o.price)
      then SupplyChange(h.markets[o.market], o.dir, TargetFills(h.markets[o.market], o), x) else 0
    case PlaceMarket(m, dir, size, a) =>
      if CanPay(h, m, dir, size, a) then SupplyChange(h.markets[m], dir, MarketFills(h.markets[m], dir, size, a), x)
      else 0
    case CancelOp(_, _) => 0
  }

  lemma {:induction false} LimitKeepsPaired(h: House, o: LimitOrder, h': House, out: Outcome)
    requires PairedBooks(h) == true && Formed(h, PlaceLimit(o)) && LimitStep(h, o, h', out)
    ensures PairedBooks(h') == true
  {
    if o.market < |h.markets| && out != Refused {
      assert PairedBook(h.markets[o.market]);
      LimitKeepsOk(h.markets[o.market], o, h'.markets[o.market], ReportOf(out));
      PairedReplaced(h, o.market, h');
    }
  }

  lemma {:induction false} LimitTradeSupply(mk: Market, o: LimitOrder, r: Report, accounts: Accounts, x: Asset)
    requires PairedBook(mk)
    requires var fills := TargetFills(mk, o);
      Live(r.filled) == DoneOrders(fills) && r.residual == ResidualOf(fills) && r.tally == TallyOf(fills, mk.prec)
    ensures Supply(ApplyAll(accounts, LimitDeltas(mk, o, Some(r))), x)
         == Supply(accounts, x) + SupplyChange(mk, o.dir, TargetFills(mk, o), x)
  {
    LimitSettles(mk, o);
    LockAndSettle(mk, o.dir, o.account, LockOf(mk, o), TargetFills(mk, o), r, accounts, x);
    assert LimitDeltas(mk, o, Some(r)) == [LockDelta(mk, o)] + SettleDeltas(mk, o.dir, o.account, LockOf(mk, o), r);
  }

  lemma {:induction false} LimitChangesSupply(h: House, o: LimitOrder, h': House, out: Outcome, x: Asset)
    requires PairedBooks(h) == true && Formed(h, PlaceLimit(o)) && LimitStep(h, o, h', out) == true
    ensures Supply(h'.accounts, x) == Supply(h.accounts, x) + StepChange(h, PlaceLimit(o), x)
  {
    if o.market >= |h.markets| {
      SupplyTouch(h.accounts, o.account, x);
    } else if out == Refused {
      SupplyApply(h.accounts, Delta(o.account, OutAsset(h.markets[o.market], o.dir), 0, 0), x);
    } else if out == Resting {
      var mk := h.markets[o.market];
      ApplyOne(h.accounts, LockDelta(mk, o));
      SupplyApply(h.accounts, LockDelta(mk, o), x);
    } else {
      assert PairedBook(h.markets[o.market]);
      ExecutedFacts(h, o, h', out.report);
      LimitTradeSupply(h.markets[o.market], o, out.report, h.accounts, x);
    }
  }

  lemma {:induction false} MarketKeepsPaired(
      h: House, m: nat, dir: Direction, size: nat, a: Account, h': House, out: Outcome)
    requires PairedBooks(h) == true && Formed(h, PlaceMarket(m, dir, size, a))
    requires MarketStep(h, m, dir, size, a, h', out)
    ensures PairedBooks(h') == true
  {
    if m < |h.markets| && out != Refused {
      assert PairedBook(h.markets[m]);
      MarketKeepsOk(h.markets[m], dir, MarketFills(h.markets[m], dir, size, a), h'.markets[m], out.report);
      PairedReplaced(h, m, h');
    }
  }

  lemma {:induction false} MarketTradeSupply(
      mk: Market, dir: Direction, size: nat, a: Account, r: Report, accounts: Accounts, x: Asset)
    requires PairedBook(mk) && (dir == Buy ==> Priced(mk.asks))
    requires var fills := MarketFills(mk, dir, size, a);
      Live(r.filled) == DoneOrders(fills) && r.residual == ResidualOf(fills) && r.tally == TallyOf(fills, mk.prec)
    ensures Supply(ApplyAll(accounts, MarketDeltas(mk, dir, size, a, r)), x)
         == Supply(accounts, x) + SupplyChange(mk, dir, MarketFills(mk, dir, size, a), x)
  {
    var need := NeedOf(mk, dir, size);
    MarketSettles(mk, dir, size, a);
    LockAndSettle(mk, dir, a, need, MarketFills(mk, dir, size, a), r, accounts, x);
    assert MarketDeltas(mk, dir, size, a, r) == [NeedDelta(mk, dir, size, a)] + SettleDeltas(mk, dir, a, need, r);
  }

  lemma {:induction false} MarketChangesSupply(
      h: House, m: nat, dir: Direction, size: nat, a: Account, h': House, out: Outcome, x: Asset)
    requires PairedBooks(h) == true && Formed(h, PlaceMarket(m, dir, size, a))
    requires MarketStep(h, m, dir, size, a, h', out) == true
    ensures Supply(h'.accounts, x) == Supply(h.accounts, x) + StepChange(h, PlaceMarket(m, dir, size, a), x)
  {
    if m >= |h.markets| {
      SupplyTouch(h.accounts, a, x);
    } else if out == Refused {
      SupplyApply(h.accounts, Delta(a, OutAsset(h.markets[m], dir), 0, 0), x);
    } else {
      assert PairedBook(h.markets[m]);
      MarketFacts(h, m, dir, size, a, h', out.report);
      MarketTradeSupply(h.markets[m], dir, size, a, out.report, h.accounts, x);
    }
  }

  lemma {:induction false} CancelChangesNothing(
      h: House, o: LimitOrder, p: MarketPrecision, h': House, ok: bool, unfilled: nat, x: Asset)
    requires PairedBooks(h) && Allowed(h, CancelOp(o, p)) && CancelStep(h, o, p, h', ok, unfilled)
    ensures PairedBooks(h') == true && Supply(h'.accounts, x) == Supply(h.accounts, x)
  {
    if o.market < |h.markets| {
      var mk := h.markets[o.market];
      assert PairedBook(mk);
      CancelKeepsOk(mk, o, h'.markets[o.market], unfilled);
      PairedReplaced(h, o.market, h');
      SupplyApply(h.accounts, CancelDelta(mk, o, unfilled, p), x);
    } else {
      SupplyTouch(h.accounts, o.account, x);
    }
  }

  /** Every allowed step keeps the books in order and changes each supply by exactly that. */
  lemma {:induction false} StepSupply(h: House, op: Op, h': House, res: Result, x: Asset)
    requires PairedBooks(h) == true && Allowed(h, op) && Step(h, op, h', res) == true
    ensures PairedBooks(h') == true && Supply(h'.accounts, x) == Supply(h.accounts, x) + StepChange(h, op, x)
  {
    match op
    case PlaceLimit(o) =>
      LimitKeepsPaired(h, o, h', res.out);
      LimitChangesSupply(h, o, h', res.out, x);
    case PlaceMarket(m, dir, size, a) =>
      MarketKeepsPaired(h, m, dir, size, a, h', res.out);
      MarketChangesSupply(h, m, dir, size, a, h', res.out, x);
    case CancelOp(o, p) => CancelChangesNothing(h, o, p, h', res.ok, res.unfilled, x);
  }

  // ---------- runs ----------

  ghost predicate AllowedRun(hs: seq<House>, ops: seq<Op>, results: seq<Result>) {
    && |hs| == |ops| + 1 && |results| == |ops|
    && forall i {:trigger ops[i]} :: 0 <= i < |ops| ==>
         Allowed(hs[i], ops[i]) && Step(hs[i], ops[i], hs[i + 1], results[i])
  }

  ghost function RunChange(hs: seq<House>, ops: seq<Op>, k: nat, x: Asset): int
    requires k <= |ops| < |hs| && forall i {:trigger ops[i]} :: 0 <= i < |ops| ==> Allowed(hs[i], ops[i])
  {
    if k == 0 then 0
    else
      assert Allowed(hs[k - 1], ops[k - 1]);
      RunChange(hs, ops, k - 1, x) + StepChange(hs[k - 1], ops[k - 1], x)
  }

  /** The exact law of supply over every run, self trades included: what there is at the end is
      what there was at the start plus what completed self-filled makers were settled for
      beyond their fills. */
  lemma {:induction false} RunSupply(hs: seq<House>, ops: seq<Op>, results: seq<Result>, k: nat, x: Asset)
    requires AllowedRun(hs, ops, results) && PairedBooks(hs[0]) && k <= |ops|
    ensures PairedBooks(hs[k]) == true
    ensures Supply(hs[k].accounts, x) == Supply(hs[0].accounts, x) + RunChange(hs, ops, k, x)
  {
    if k > 0 {
      RunSupply(hs, ops, results, k - 1, x);
      assert Allowed(hs[k - 1], ops[k - 1]);
      StepSupply(hs[k - 1], ops[k - 1], hs[k], results[k - 1], x);
    }
  }
}
