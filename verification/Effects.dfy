/** Who ends up with what: the exact balances of every account after each step. */
module Effects {
  import opened LotMath
  import opened Orders
  import opened BookEdits
  import opened Sweeps
  import opened Matching
  import opened SpotMarkets
  import opened Balances
  import opened Settlement
  import opened ClearingHouse
  import opened Solvency
  import opened HouseRuns
  import opened SelfTrades

  // ---------- sums of deltas ----------

  function AvailableSum(ds: seq<Delta>, a: Account, x: Asset): int {
    if ds == [] then 0
    else (if ds[0].account == a && ds[0].asset == x then ds[0].available else 0) + AvailableSum(ds[1..], a, x)
  }

  function TotalSum(ds: seq<Delta>, a: Account, x: Asset): int {
    if ds == [] then 0
    else (if ds[0].account == a && ds[0].asset == x then ds[0].total else 0) + TotalSum(ds[1..], a, x)
  }

  lemma {:induction false} SumsAppend(ds: seq<Delta>, es: seq<Delta>, a: Account, x: Asset)
    ensures AvailableSum(ds + es, a, x) == AvailableSum(ds, a, x) + AvailableSum(es, a, x)
    ensures TotalSum(ds + es, a, x) == TotalSum(ds, a, x) + TotalSum(es, a, x)
  {
    if ds == [] {
      assert ds + es == es;
    } else {
      assert (ds + es)[1..] == ds[1..] + es;
      SumsAppend(ds[1..], es, a, x);
    }
  }

  lemma {:induction false} SumsPair(d: Delta, e: Delta, a: Account, x: Asset)
    ensures AvailableSum([d, e], a, x)
         == (if d.account == a && d.asset == x then d.available else 0)
            + (if e.account == a && e.asset == x then e.available else 0)
    ensures TotalSum([d, e], a, x)
         == (if d.account == a && d.asset == x then d.total else 0)
            + (if e.account == a && e.asset == x then e.total else 0)
  {
    assert [d, e][1..] == [e] && [e][1..] == [];
    assert AvailableSum([e], a, x) == (if e.account == a && e.asset == x then e.available else 0)
        + AvailableSum([], a, x);
    assert TotalSum([e], a, x) == (if e.account == a && e.asset == x then e.total else 0) + TotalSum([], a, x);
  }

  lemma {:induction false} ApplyAllEffect(accounts: Accounts, ds: seq<Delta>, a: Account, x: Asset)
    ensures Available(ApplyAll(accounts, ds), a, x) == Available(accounts, a, x) + AvailableSum(ds, a, x)
    ensures Total(ApplyAll(accounts, ds), a, x) == Total(accounts, a, x) + TotalSum(ds, a, x)
    decreases |ds|
  {
    if ds != [] {
      ApplyEffect(accounts, ds[0], a, x);
      ApplyAllEffect(Apply(accounts, ds[0]), ds[1..], a, x);
    }
  }

  // ---------- what a match moves ----------

  /** Base lots that a maker is settled for: the fill, and when that completes the order also
      what it had matched with its owner; a self trade that leaves something moves nothing. */
  function MovedLots(f: Fill): nat {
    if Full(f) then f.lots + f.order.selfFilled else if f.own then 0 else f.lots
  }

  function BaseOf(lots: nat, p: MarketPrecision): nat { lots * p.baseLot }

  function QuoteOf(lots: nat, price: nat, p: MarketPrecision): nat { BaseToQuote(lots, price, p) * p.quoteLot }

  /** Base and quote units that the orders of account `b` move among these fills. */
  function MakerBase(fills: seq<Fill>, b: Account, p: MarketPrecision): nat {
    if fills == [] then 0
    else (if fills[0].order.account == b then BaseOf(MovedLots(fills[0]), p) else 0) + MakerBase(fills[1..], b, p)
  }

  function MakerQuoteOf(fills: seq<Fill>, b: Account, p: MarketPrecision): nat {
    if fills == [] then 0
    else
      (if fills[0].order.account == b then QuoteOf(MovedLots(fills[0]), fills[0].order.price, p) else 0)
      + MakerQuoteOf(fills[1..], b, p)
  }

  /** Base and quote units of the taker: its fills with other accounts, each rounded by itself. */
  function TakerBase(fills: seq<Fill>, p: MarketPrecision): nat {
    if fills == [] then 0 else (if fills[0].own then 0 else BaseOf(fills[0].lots, p)) + TakerBase(fills[1..], p)
  }

  function TakerQuote(fills: seq<Fill>, p: MarketPrecision): nat {
    if fills == [] then 0
    else
      (if fills[0].own then 0 else QuoteOf(fills[0].lots, fills[0].order.price, p)) + TakerQuote(fills[1..], p)
  }

  /** A buyer `a` gains base and pays quote, in both balances; the sellers gain quote in both and
      lose base, which they had locked, from the total alone. For a seller the other way round. */
  function AvailableChange(mk: Market, dir: Direction, fills: seq<Fill>, a: Account, b: Account, x: Asset): int {
    if x == mk.base && dir == Buy then (if b == a then TakerBase(fills, mk.prec) else 0)
    else if x == mk.quote && dir == Buy then
      MakerQuoteOf(fills, b, mk.prec) - if b == a then TakerQuote(fills, mk.prec) else 0
    else if x == mk.base then MakerBase(fills, b, mk.prec) - if b == a then TakerBase(fills, mk.prec) else 0
    else if x == mk.quote then (if b == a then TakerQuote(fills, mk.prec) else 0)
    else 0
  }

  function TotalChange(mk: Market, dir: Direction, fills: seq<Fill>, a: Account, b: Account, x: Asset): int {
    if x == mk.base && dir == Buy then (if b == a then TakerBase(fills, mk.prec) else 0) - MakerBase(fills, b, mk.prec)
    else if x == mk.quote && dir == Buy then
      MakerQuoteOf(fills, b, mk.prec) - if b == a then TakerQuote(fills, mk.prec) else 0
    else if x == mk.base then MakerBase(fills, b, mk.prec) - if b == a then TakerBase(fills, mk.prec) else 0
    else if x == mk.quote then (if b == a then TakerQuote(fills, mk.prec) else 0) - MakerQuoteOf(fills, b, mk.prec)
    else 0
  }

  // ---------- the settlement does that ----------

  lemma {:induction false} TakerUnits(fills: seq<Fill>, p: MarketPrecision)
    ensures Scale(Lots(fills, false), p.baseLot) == TakerBase(fills, p)
    ensures Scale(Quote(fills, false, p), p.quoteLot) == TakerQuote(fills, p)
  {
    if fills != [] {
      var f := fills[0];
      TakerUnits(fills[1..], p);
      var q := BaseToQuote(f.lots, f.order.price, p);
      ScaleIsProduct(f.lots, p.baseLot);
      ScaleIsProduct(q, p.quoteLot);
      ScaleAdd(if f.own then 0 else f.lots, Lots(fills[1..], false), p.baseLot);
      ScaleAdd(if f.own then 0 else q, Quote(fills[1..], false, p), p.quoteLot);
    }
  }

  /** The share of the makers in one side's direction. */
  function MakerAvailable(mk: Market, dir: Direction, fills: seq<Fill>, b: Account, x: Asset): int {
    if x == mk.base && dir == Buy then MakerBase(fills, b, mk.prec)
    else if x == mk.quote && dir == Sell then MakerQuoteOf(fills, b, mk.prec)
    else 0
  }

  function MakerTotal(mk: Market, dir: Direction, fills: seq<Fill>, b: Account, x: Asset): int {
    if x == mk.base then Signed(dir, MakerBase(fills, b, mk.prec))
    else if x == mk.quote then -Signed(dir, MakerQuoteOf(fills, b, mk.prec))
    else 0
  }

  lemma {:induction false} OneMaker(mk: Market, dir: Direction, a: Account, lots: nat, price: nat, b: Account, x: Asset)
    requires mk.base != mk.quote
    ensures var ds := MakerDeltas(mk, dir, a, lots, price);
      && AvailableSum(ds, b, x) == (if a != b then 0 else if x == mk.base && dir == Buy then BaseOf(lots, mk.prec)
                                    else if x == mk.quote && dir == Sell then QuoteOf(lots, price, mk.prec) else 0)
      && TotalSum(ds, b, x) == (if a != b then 0 else if x == mk.base then Signed(dir, BaseOf(lots, mk.prec))
                                else if x == mk.quote then -Signed(dir, QuoteOf(lots, price, mk.prec)) else 0)
  {
    var ds := MakerDeltas(mk, dir, a, lots, price);
    SumsPair(ds[0], ds[1], b, x);
    assert ds == [ds[0], ds[1]];
    ScaleIsProduct(lots, mk.prec.baseLot);
    ScaleIsProduct(BaseToQuote(lots, price, mk.prec), mk.prec.quoteLot);
  }

  /** The deltas of the makers of these fills. */
  function MakerShare(mk: Market, dir: Direction, fills: seq<Fill>): seq<Delta> {
    DoneDeltas(mk, dir, DoneOrders(fills)) + ResidualDeltas(mk, dir, ResidualOf(fills))
  }

  lemma {:induction false} MakerShareHead(mk: Market, dir: Direction, fills: seq<Fill>)
    requires FullButLast(fills) && fills != [] && forall o :: o in DoneOrders(fills) ==> !Dead(o)
    ensures var f := fills[0];
      && MakerShare(mk, dir, fills)
         == MakerDeltas(mk, dir, f.order.account, MovedLots(f), f.order.price) + MakerShare(mk, dir, fills[1..])
      && FullButLast(fills[1..]) && forall o :: o in DoneOrders(fills[1..]) ==> !Dead(o)
  {
    var f, rest := fills[0], fills[1..];
    if Full(f) {
      assert DoneOrders(fills)[1..] == DoneOrders(rest) && DoneOrders(fills)[0] == Done(f);
      assert Done(f) in DoneOrders(fills);
      FullShare(mk, dir, f, rest, fills);
    } else {
      assert rest == [] && DoneOrders(fills) == [];
      assert ResidualDeltas(mk, dir, ResidualOf(fills))
          == MakerDeltas(mk, dir, f.order.account, MovedLots(f), f.order.price);
    }
  }

  lemma {:induction false} FullShare(mk: Market, dir: Direction, f: Fill, rest: seq<Fill>, fills: seq<Fill>)
    requires fills == [f] + rest && Full(f) && !Dead(Done(f))
    ensures MakerShare(mk, dir, fills)
         == MakerDeltas(mk, dir, f.order.account, MovedLots(f), f.order.price) + MakerShare(mk, dir, rest)
  {
    var first := MakerDeltas(mk, dir, f.order.account, MovedLots(f), f.order.price);
    assert fills[1..] == rest && (rest != [] ==> fills[|fills| - 1] == rest[|rest| - 1]);
    assert DoneOrders(fills)[1..] == DoneOrders(rest) && DoneOrders(fills)[0] == Done(f);
    AppendAssoc(first, DoneDeltas(mk, dir, DoneOrders(rest)), ResidualDeltas(mk, dir, ResidualOf(rest)));
  }

  lemma {:induction false} MakersSum(mk: Market, dir: Direction, fills: seq<Fill>, b: Account, x: Asset)
    requires mk.base != mk.quote && FullButLast(fills) && forall o :: o in DoneOrders(fills) ==> !Dead(o)
    ensures AvailableSum(MakerShare(mk, dir, fills), b, x) == MakerAvailable(mk, dir, fills, b, x)
    ensures TotalSum(MakerShare(mk, dir, fills), b, x) == MakerTotal(mk, dir, fills, b, x)
  {
    if fills != [] {
      var f, rest := fills[0], fills[1..];
      var first := MakerDeltas(mk, dir, f.order.account, MovedLots(f), f.order.price);
      MakerShareHead(mk, dir, fills);
      OneMaker(mk, dir, f.order.account, MovedLots(f), f.order.price, b, x);
      MakersSum(mk, dir, rest, b, x);
      SumsAppend(first, MakerShare(mk, dir, rest), b, x);
    }
  }

  lemma {:induction false} SettleEffect(
      mk: Market, dir: Direction, a: Account, lock: nat, fills: seq<Fill>, r: Report, b: Account, x: Asset)
    requires mk.base != mk.quote && FullButLast(fills) && (forall o :: o in DoneOrders(fills) ==> !Dead(o))
    requires Live(r.filled) == DoneOrders(fills) && r.residual == ResidualOf(fills)
      && r.tally == TallyOf(fills, mk.prec)
    ensures var ds := [Delta(a, OutAsset(mk, dir), 0 - lock, 0)] + SettleDeltas(mk, dir, a, lock, r);
      && AvailableSum(ds, b, x) == AvailableChange(mk, dir, fills, a, b, x)
      && TotalSum(ds, b, x) == TotalChange(mk, dir, fills, a, b, x)
  {
    var opp, d := Opposite(dir), Delta(a, OutAsset(mk, dir), 0 - lock, 0);
    var t := TakerDeltas(mk, dir, a, lock, r.tally);
    var done, left := DoneDeltas(mk, opp, r.filled), ResidualDeltas(mk, opp, r.residual);
    DoneSkipsDead(mk, opp, r.filled);
    MakersSum(mk, opp, fills, b, x);
    TakerUnits(fills, mk.prec);
    SumsPair(t[0], t[1], b, x);
    assert t == [t[0], t[1]];
    AppendAssoc(t, done, left);
    SumsAppend(t, done + left, b, x);
    SumsAppend([d], t + (done + left), b, x);
    assert [d][1..] == [];
  }

  // ---------- self trades and the last price ----------

  lemma {:induction false} GreedyOwn(list: seq<LimitOrder>, size: nat, taker: Option<Account>, i: nat)
    requires i < |Greedy(list, size, taker)|
    ensures var f := Greedy(list, size, taker)[i]; f.own <==> taker == Some(f.order.account)
  {
    if i > 0 {
      GreedyOwn(list[1..], size - Min(size, Remaining(list[0])), taker, i - 1);
    }
  }

  lemma {:induction false} BuyOwn(levels: seq<Level>, quote: nat, taker: Account, p: MarketPrecision, i: nat)
    requires Priced(levels) && i < |BuyFills(levels, quote, taker, p)|
    ensures var f := BuyFills(levels, quote, taker, p)[i]; f.own <==> f.order.account == taker
    decreases |levels|
  {
    var live, base := Live(Top(levels).orders), QuoteToBase(quote, Top(levels).price, p);
    var g := Greedy(live, base, Some(taker));
    if i < |g| {
      GreedyOwn(live, base, Some(taker), i);
    } else {
      BuyOwn(Below(levels), Monus(quote, AllQuote(g, p)), taker, p, i - |g|);
    }
  }

  /** A market order's fill is a self trade exactly if it is with an order of the taker. */
  lemma {:induction false} OwnIff(mk: Market, dir: Direction, size: nat, a: Account, i: nat)
    requires (dir == Buy ==> Priced(mk.asks)) && i < |MarketFills(mk, dir, size, a)|
    ensures var f := MarketFills(mk, dir, size, a)[i]; f.own <==> f.order.account == a
  {
    if dir == Sell {
      GreedyOwn(Flatten(mk.bids), size, Some(a), i);
    } else {
      BuyOwn(mk.asks, size, a, mk.prec, i);
    }
  }

  lemma {:induction false} LastPriceAt(fills: seq<Fill>, i: nat)
    requires i < |fills| && !fills[i].own && forall j :: i < j < |fills| ==> fills[j].own
    ensures LastPrice(fills) == Some(fills[i].order.price)
    decreases |fills|
  {
    if i < |fills| - 1 {
      LastPriceAt(fills[..|fills| - 1], i);
    }
  }

  lemma {:induction false} NoLastPrice(fills: seq<Fill>)
    requires forall j :: 0 <= j < |fills| ==> fills[j].own
    ensures LastPrice(fills) == None
  {
    if fills != [] {
      NoLastPrice(fills[..|fills| - 1]);
    }
  }

  /** The market's last price after a match is that of its last fill with another account; if there
      is none it stands. */
  lemma {:induction false} LastTrade(mk: Market, side: Direction, fills: seq<Fill>, mk': Market, r: Report)
    requires SweptSide(mk, side, fills, mk', r)
    ensures (forall j :: 0 <= j < |fills| ==> fills[j].own) ==> mk'.last == mk.last
    ensures forall i {:trigger fills[i]} ::
      0 <= i < |fills| && !fills[i].own && (forall j :: i < j < |fills| ==> fills[j].own) ==>
        mk'.last == Some(fills[i].order.price)
  {
    if forall j :: 0 <= j < |fills| ==> fills[j].own {
      NoLastPrice(fills);
    }
    forall i | 0 <= i < |fills| && !fills[i].own && (forall j :: i < j < |fills| ==> fills[j].own)
      ensures mk'.last == Some(fills[i].order.price)
    {
      LastPriceAt(fills, i);
    }
  }

  // ---------- orders ----------

  /** What an order of this size and price pays: quote for a buy, base for a sell. */
  function Cost(mk: Market, dir: Direction, lots: nat, price: nat): nat {
    if dir == Buy then QuoteOf(lots, price, mk.prec) else BaseOf(lots, mk.prec)
  }

  lemma {:induction false} LockIsCost(mk: Market, o: LimitOrder)
    ensures LockOf(mk, o) == Cost(mk, o.dir, o.base, o.price)
  {
    ScaleIsProduct(o.base, mk.prec.baseLot);
    ScaleIsProduct(BaseToQuote(o.base, o.price, mk.prec), mk.prec.quoteLot);
  }

  /** The asset that an order of this direction pays with. */
  function Pays(mk: Market, dir: Direction): Asset { if dir == Buy then mk.quote else mk.base }

  /** Some level of the other side, with or without live orders, is at the order's price or better. */
  ghost predicate MeetsLevel(mk: Market, dir: Direction, price: nat) {
    if dir == Buy then exists i :: 0 <= i < |mk.asks| && mk.asks[i].price <= price
    else exists i :: 0 <= i < |mk.bids| && mk.bids[i].price >= price
  }

  lemma {:induction false} CrossesIff(mk: Market, dir: Direction, price: nat)
    requires MarketOk(mk)
    ensures Crosses(mk, dir, price) <==> MeetsLevel(mk, dir, price)
  {
    var levels := Side(mk, Opposite(dir));
    if levels != [] {
      var n := |levels| - 1;
      forall i | 0 <= i < n ensures Key(Opposite(dir), levels[i].price) < Key(Opposite(dir), levels[n].price) {
      }
      assert Crosses(mk, dir, price) ==> MeetsLevel(mk, dir, price) by {
        assert levels[n] == Top(levels);
      }
    }
  }

  /** The sender cannot pay for all of the order at its price. */
  predicate Short(h: House, o: LimitOrder)
    requires o.market < |h.markets|
  {
    Available(h.accounts, o.account, Pays(h.markets[o.market], o.dir)) < Cost(h.markets[o.market], o.dir, o.base,
        o.price)
  }

  /** A limit order is refused exactly if its market is missing or its sender is short; it
      executes exactly if it is not refused and meets a level of the other side. */
  lemma {:induction false} LimitAnswer(h: House, o: LimitOrder, h': House, out: Outcome)
    requires o.filled == 0 && o.selfFilled == 0 && LimitStep(h, o, h', out)
    requires o.market < |h.markets| ==> MarketOk(h.markets[o.market])
    ensures out == Refused <==> (o.market < |h.markets| ==> Short(h, o))
    ensures out.Executed? <==> out != Refused && MeetsLevel(h.markets[o.market], o.dir, o.price)
  {
    if o.market < |h.markets| {
      LockIsCost(h.markets[o.market], o);
      CrossesIff(h.markets[o.market], o.dir, o.price);
    }
  }

  /** A market order is refused exactly if its market is missing or its sender does not have its
      size in the asset it pays with. */
  lemma {:induction false} MarketAnswer(
      h: House, m: nat, dir: Direction, size: nat, a: Account, h': House, out: Outcome)
    requires m < |h.markets| && dir == Buy ==> Priced(h.markets[m].asks)
    requires MarketStep(h, m, dir, size, a, h', out)
    ensures out == Refused <==> (m < |h.markets| ==>
      Available(h.accounts, a, Pays(h.markets[m], dir))
        < size * if dir == Buy then h.markets[m].prec.quoteLot else h.markets[m].prec.baseLot)
    ensures out == Refused || out.Executed?
  {
    if m < |h.markets| {
      ScaleIsProduct(size, h.markets[m].prec.quoteLot);
      ScaleIsProduct(size, h.markets[m].prec.baseLot);
    }
  }

  // ---------- the balances after each step ----------

  /** A refused order changes no balance; one that rests takes its cost from its sender's
      available balance alone. */
  lemma {:induction false} RestingBalances(h: House, o: LimitOrder, h': House, out: Outcome, b: Account, x: Asset)
    requires o.filled == 0 && o.selfFilled == 0 && LimitStep(h, o, h', out) && !out.Executed?
    ensures Total(h'.accounts, b, x) == Total(h.accounts, b, x)
    ensures Available(h'.accounts, b, x) == Available(h.accounts, b, x)
      - if out == Resting && b == o.account && x == Pays(h.markets[o.market], o.dir)
        then Cost(h.markets[o.market], o.dir, o.base, o.price) else 0
  {
    if o.market < |h.markets| {
      var mk := h.markets[o.market];
      if out == Refused {
        ApplyEffect(h.accounts, Delta(o.account, OutAsset(mk, o.dir), 0, 0), b, x);
      } else {
        LockIsCost(mk, o);
        ApplyOne(h.accounts, LockDelta(mk, o));
        ApplyEffect(h.accounts, LockDelta(mk, o), b, x);
      }
    }
  }

  /** An executed limit order: everyone's balances change by exactly what the fills move. */
  lemma {:induction false} LimitBalances(h: House, o: LimitOrder, h': House, r: Report, b: Account, x: Asset)
    requires PairedBooks(h) == true && o.filled == 0 && o.selfFilled == 0 && o.market < |h.markets|
    requires LimitStep(h, o, h', Executed(r)) == true
    ensures var mk, fills := h.markets[o.market], TargetFills(h.markets[o.market], o);
      && Available(h'.accounts, b, x)
         == Available(h.accounts, b, x) + AvailableChange(mk, o.dir, fills, o.account, b, x)
      && Total(h'.accounts, b, x) == Total(h.accounts, b, x) + TotalChange(mk, o.dir, fills, o.account, b, x)
  {
    var mk := h.markets[o.market];
    assert PairedBook(mk);
    ExecutedFacts(h, o, h', r);
    LimitTradeBalances(mk, o, r, h.accounts, h'.accounts, b, x);
  }

  lemma {:induction false} LimitTradeBalances(
      mk: Market, o: LimitOrder, r: Report, accounts: Accounts, accounts': Accounts, b: Account, x: Asset)
    requires PairedBook(mk) && accounts' == ApplyAll(accounts, LimitDeltas(mk, o, Some(r)))
    requires var fills := TargetFills(mk, o);
      Live(r.filled) == DoneOrders(fills) && r.residual == ResidualOf(fills) && r.tally == TallyOf(fills, mk.prec)
    ensures var fills := TargetFills(mk, o);
      && Available(accounts', b, x) == Available(accounts, b, x) + AvailableChange(mk, o.dir, fills, o.account, b, x)
      && Total(accounts', b, x) == Total(accounts, b, x) + TotalChange(mk, o.dir, fills, o.account, b, x)
  {
    LimitSettles(mk, o);
    SettleEffect(mk, o.dir, o.account, LockOf(mk, o), TargetFills(mk, o), r, b, x);
    ApplyAllEffect(accounts, LimitDeltas(mk, o, Some(r)), b, x);
  }

  /** So does an executed market order; whatever it does not spend it keeps. */
  lemma {:induction false} MarketBalances(
      h: House, m: nat, dir: Direction, size: nat, a: Account, h': House, r: Report, b: Account, x: Asset)
    requires PairedBooks(h) == true && m < |h.markets| && (dir == Buy ==> Priced(h.markets[m].asks))
    requires MarketStep(h, m, dir, size, a, h', Executed(r)) == true
    ensures var mk, fills := h.markets[m], MarketFills(h.markets[m], dir, size, a);
      && Available(h'.accounts, b, x) == Available(h.accounts, b, x) + AvailableChange(mk, dir, fills, a, b, x)
      && Total(h'.accounts, b, x) == Total(h.accounts, b, x) + TotalChange(mk, dir, fills, a, b, x)
  {
    var mk := h.markets[m];
    assert PairedBook(mk);
    MarketFacts(h, m, dir, size, a, h', r);
    MarketTradeBalances(mk, dir, size, a, r, h.accounts, h'.accounts, b, x);
  }

  lemma {:induction false} MarketTradeBalances(mk: Market, dir: Direction, size: nat, a: Account, r: Report,
      accounts: Accounts, accounts': Accounts, b: Account, x: Asset)
    requires PairedBook(mk) && (dir == Buy ==> Priced(mk.asks))
    requires accounts' == ApplyAll(accounts, MarketDeltas(mk, dir, size, a, r))
    requires var fills := MarketFills(mk, dir, size, a);
      Live(r.filled) == DoneOrders(fills) && r.residual == ResidualOf(fills) && r.tally == TallyOf(fills, mk.prec)
    ensures var fills := MarketFills(mk, dir, size, a);
      && Available(accounts', b, x) == Available(accounts, b, x) + AvailableChange(mk, dir, fills, a, b, x)
      && Total(accounts', b, x) == Total(accounts, b, x) + TotalChange(mk, dir, fills, a, b, x)
  {
    MarketSettles(mk, dir, size, a);
    SettleEffect(mk, dir, a, NeedOf(mk, dir, size), MarketFills(mk, dir, size, a), r, b, x);
    ApplyAllEffect(accounts, MarketDeltas(mk, dir, size, a, r), b, x);
  }

  lemma {:induction false} RefusedMarketBalances(
      h: House, m: nat, dir: Direction, size: nat, a: Account, h': House, b: Account, x: Asset)
    requires m < |h.markets| && dir == Buy ==> Priced(h.markets[m].asks)
    requires MarketStep(h, m, dir, size, a, h', Refused)
    ensures Available(h'.accounts, b, x) == Available(h.accounts, b, x)
      && Total(h'.accounts, b, x) == Total(h.accounts, b, x)
  {
    if m < |h.markets| {
      ApplyEffect(h.accounts, Delta(a, OutAsset(h.markets[m], dir), 0, 0), b, x);
    }
  }

  // ---------- cancels ----------

  /** A cancel hands back to the owner's available balance what the unfilled part costs, at the
      lot sizes it comes with, and changes nothing else; without a live order it changes nothing. */
  lemma {:induction false} CancelBalances(
      h: House, o: LimitOrder, p: MarketPrecision, h': House, ok: bool, unfilled: nat, b: Account, x: Asset)
    requires CancelStep(h, o, p, h', ok, unfilled)
    ensures ok <==> o.market < |h.markets|
    ensures Total(h'.accounts, b, x) == Total(h.accounts, b, x)
    ensures Available(h'.accounts, b, x) == Available(h.accounts, b, x)
      + if ok && Lists(Flatten(Side(h.markets[o.market], o.dir)), o)
           && b == o.account && x == Pays(h.markets[o.market], o.dir)
        then Cost(h.markets[o.market].(prec := p), o.dir, o.base - o.filled, o.price) else 0
  {
    if ok {
      var mk := h.markets[o.market];
      ScaleIsProduct(unfilled, p.baseLot);
      ScaleIsProduct(BaseToQuote(unfilled, o.price, p), p.quoteLot);
      NothingBack(mk, o, p);
      ApplyEffect(h.accounts, CancelDelta(mk, o, unfilled, p), b, x);
    }
  }

  /** At the order's own lot sizes that is exactly what the order had pledged. */
  lemma {:induction false} RefundIsPledge(mk: Market, o: LimitOrder)
    ensures Cost(mk, o.dir, o.base - o.filled, o.price) == PledgeOf(mk, o).amount
    ensures Pays(mk, o.dir) == PledgeOf(mk, o).asset && o.account == PledgeOf(mk, o).account
  {
    ScaleIsProduct(o.base - o.filled, mk.prec.baseLot);
    ScaleIsProduct(BaseToQuote(o.base - o.filled, o.price, mk.prec), mk.prec.quoteLot);
  }

  lemma {:induction false} EnqueueThenWithout(side: Direction, list: seq<LimitOrder>, o: LimitOrder)
    requires forall x :: x in list ==> !SameSlot(x, o)
    ensures Without(Enqueue(side, list, o), o) == list
  {
    if list != [] && Key(side, o.price) <= Key(side, list[0].price) {
      assert list[0] in list;
      EnqueueThenWithout(side, list[1..], o);
      assert Enqueue(side, list, o)[1..] == Enqueue(side, list[1..], o);
    } else {
      WithoutAbsent(list, o);
      assert ([o] + list)[1..] == list;
    }
  }

  lemma {:induction false} NewSlot(side: Direction, levels: seq<Level>, o: LimitOrder)
    requires BookOk(side, levels) && FreshId(levels, o.id)
    ensures forall x :: x in Flatten(levels) ==> !SameSlot(x, o)
  {
    forall x | x in Flatten(levels) ensures !SameSlot(x, o) {
      var n :| 0 <= n < |Flatten(levels)| && Flatten(levels)[n] == x;
      var i, j := FlattenIsEntry(levels, n);
    }
  }

  lemma {:induction false} QueuedIsExact(side: Direction, list: seq<LimitOrder>, o: LimitOrder)
    requires (forall x :: x in list ==> !SameSlot(x, o)) && o.selfFilled == 0
    ensures Exact(Enqueue(side, list, o), o) == true && Lists(Enqueue(side, list, o), o) == true
  {
    EnqueueMembers(side, list, o);
    var list' := Enqueue(side, list, o);
    assert o in multiset(list');
    forall x | x in list' && SameSlot(x, o) ensures x == o {
      assert x in multiset(list');
    }
  }

  /** Placing an order that rests and cancelling it at once leaves all balances as they were ... */
  lemma {:induction false} RoundTripBalances(
      h: House, o: LimitOrder, h1: House, h2: House, ok: bool, unfilled: nat, b: Account, x: Asset)
    requires o.filled == 0 && o.selfFilled == 0 && o.market < |h.markets| && LimitStep(h, o, h1, Resting) == true
    requires Lists(Flatten(Side(h1.markets[o.market], o.dir)), o) == true
    requires CancelStep(h1, o, h.markets[o.market].prec, h2, ok, unfilled) == true
    ensures Available(h2.accounts, b, x) == Available(h.accounts, b, x)
    ensures Total(h2.accounts, b, x) == Total(h.accounts, b, x)
  {
    RestingBalances(h, o, h1, Resting, b, x);
    CancelBalances(h1, o, h.markets[o.market].prec, h2, ok, unfilled, b, x);
  }

  /** ... and both sides of the market too. */
  lemma {:induction false} RoundTripBook(
      h: House, o: LimitOrder, h1: House, h2: House, ok: bool, unfilled: nat)
    requires o.market < |h.markets| && MarketOk(h.markets[o.market]) && NewOrder(h.markets[o.market], o)
    requires LimitStep(h, o, h1, Resting) == true
      && CancelStep(h1, o, h.markets[o.market].prec, h2, ok, unfilled) == true
    ensures Lists(Flatten(Side(h1.markets[o.market], o.dir)), o) == true && unfilled == o.base
    ensures Flatten(h2.markets[o.market].bids) == Flatten(h.markets[o.market].bids)
    ensures Flatten(h2.markets[o.market].asks) == Flatten(h.markets[o.market].asks)
  {
    var mk, mk1, mk2 := h.markets[o.market], h1.markets[o.market], h2.markets[o.market];
    var list := Flatten(Side(mk, o.dir));
    LimitKeepsOk(mk, o, mk1, None);
    NewSlot(o.dir, Side(mk, o.dir), o);
    QueuedIsExact(o.dir, list, o);
    EnqueueThenWithout(o.dir, list, o);
    CancelIsExact(mk1, o, mk2, unfilled);
  }
}
