/** Books on which a market buy misses a purchase and a cancel loses an order. */
module BookFailures {
  import opened LotMath
  import opened Orders
  import opened BookEdits
  import opened Matching
  import opened MarketBuys

  // ---------- small books ----------

  lemma {:induction false} LivePair(a: LimitOrder, b: LimitOrder)
    ensures Live([b]) == if Dead(b) then [] else [b]
    ensures Live([a, b]) == (if Dead(a) then [] else [a]) + if Dead(b) then [] else [b]
  {
    assert [a, b][1..] == [b] && [b][1..] == [];
    assert Live([a, b]) == if Dead(a) then Live([b]) else [a] + Live([b]);
  }

  lemma {:induction false} VolumePair(a: LimitOrder, b: LimitOrder)
    ensures Volume([a]) == Remaining(a) && Volume([a, b]) == Remaining(a) + Remaining(b)
  {
    assert [a][1..] == [] && [a, b][1..] == [b] && [b][1..] == [];
  }

  lemma {:induction false} FlattenSmall(l: Level, m: Level)
    ensures Flatten([l]) == Live(l.orders) && Flatten([l, m]) == Live(m.orders) + Live(l.orders)
  {
    assert [l][..0] == [] && [l, m][..1] == [l];
    assert Flatten([l]) == Live(l.orders) + Flatten([]);
    assert Flatten([l, m]) == Live(m.orders) + Flatten([l]);
  }

  /** A level of one order. */
  lemma {:induction false} SingleLevel(side: Direction, o: LimitOrder, l: Level)
    requires l == Level(o.price, Remaining(o), [o], 0) && o.dir == side && !Dead(o) && Remaining(o) > 0
    ensures LevelOk(side, l) == true && Live(l.orders) == [o]
  {
    LivePair(o, o);
    VolumePair(o, o);
  }

  /** A level of two orders, the second one cancelled or not. */
  lemma {:induction false} PairLevel(side: Direction, a: LimitOrder, b: LimitOrder, l: Level)
    requires a.price == b.price && a.dir == b.dir == side && a.id < b.id && !Dead(a) && Remaining(a) > 0
      && Remaining(b) > 0
    requires l == Level(a.price, Remaining(a) + if Dead(b) then 0 else Remaining(b), [a, b], if Dead(b) then 1 else 0)
    ensures LevelOk(side, l) == true && Live(l.orders) == [a] + if Dead(b) then [] else [b]
  {
    LivePair(a, b);
    VolumePair(a, b);
  }

  // ---------- a market buy stalls ----------

  /** One base lot at the first price costs less than one quote lot, so a budget of one quote
      lot buys a base lot for nothing and could buy another one at the next price; the
      cancelled entry behind the first ask hides that one. */
  ghost predicate DustBuysNext(first: LimitOrder, next: LimitOrder, p: MarketPrecision) {
    && 0 < first.price < next.price
    && QuoteToBase(1, first.price, p) == 1 && BaseToQuote(1, first.price, p) == 0 && QuoteToBase(1, next.price, p) > 0
  }

  /** Asks of one lot: a live one, a cancelled one behind it, and a live one at a higher price. */
  ghost predicate Hides(first: LimitOrder, gone: LimitOrder, next: LimitOrder) {
    && first.price == gone.price < next.price && first.dir == gone.dir == next.dir == Sell && first.id < gone.id
    && Remaining(first) == Remaining(gone) == Remaining(next) == 1 && !Dead(first) && Dead(gone) && !Dead(next)
  }

  lemma {:induction false} HidingBook(first: LimitOrder, gone: LimitOrder, next: LimitOrder, l: Level, m: Level)
    requires l == Level(next.price, 1, [next], 0) && m == Level(first.price, 1, [first, gone], 1)
    requires Hides(first, gone, next)
    ensures BookOk(Sell, [l, m]) == true && Flatten([l]) == [next] && Live([first, gone]) == [first]
  {
    SingleLevel(Sell, next, l);
    PairLevel(Sell, first, gone, m);
    FlattenSmall(l, m);
    TwoLevels(Sell, l, m);
  }

  lemma {:induction false} HiddenAsk(
      first: LimitOrder, gone: LimitOrder, next: LimitOrder, l: Level, m: Level, p: MarketPrecision, taker: Account)
    requires DustBuysNext(first, next, p) && Hides(first, gone, next) && taker != first.account
    requires l == Level(next.price, 1, [next], 0) && m == Level(first.price, 1, [first, gone], 1)
    ensures BookOk(Sell, [l, m]) == true && Priced([l, m]) && PricedList(Flatten([l, m]))
    ensures BuyFills([l, m], 1, taker, p) == [Fill(first, 1, false)]
    ensures BuyReference(Flatten([l, m]), 1, taker, p) != [Fill(first, 1, false)]
  {
    HidingBook(first, gone, next, l, m);
    VolumePair(first, gone);
    FirstFill(first, taker, p);
    assert Top([l, m]) == m && m.orders[1] == gone && Below([l, m]) == [l];
    BuyRefinesGreedy([l, m], 1, taker, p);
  }

  /** Equal lot sizes, and prices in tenths of a quote lot for a base lot. */
  predicate TenthTicks(p: MarketPrecision) { p.baseLot == p.quoteLot && Pow10(p.tickDecimals) == 10 * p.tick }

  /** The market that the program itself opens is of this kind. */
  lemma {:induction false} ProgramMarket(p: MarketPrecision)
    requires p == Precision(100, 100, 100, 3)
    ensures TenthTicks(p)
  {
    var n := p.tickDecimals;
    assert Pow10(n) == 10 * Pow10(n - 1) && Pow10(n - 1) == 10 * Pow10(n - 2) && Pow10(n - 2) == 10 * Pow10(n - 3);
  }

  lemma {:induction false} DustAtSix(first: LimitOrder, next: LimitOrder, p: MarketPrecision)
    requires TenthTicks(p) && first.price == 6 && next.price == 7
    ensures DustBuysNext(first, next, p) == true
  {
    TenthRates(1, first.price, p);
    TenthRates(1, next.price, p);
  }

  /** It happens there with asks at 6 and 7 ticks. */
  lemma {:induction false} BuyMissesAsk(
      first: LimitOrder, gone: LimitOrder, next: LimitOrder, levels: seq<Level>, p: MarketPrecision)
    requires p == Precision(100, 100, 100, 3) && levels == [Level(7, 1, [next], 0), Level(6, 1, [first, gone], 1)]
    requires first == Order(1, 0, Open, 1, Sell, 6, 1, 0, 0) && gone == Order(2, 0, Cancelled, 2, Sell, 6, 1, 0, 0)
    requires next == Order(3, 0, Open, 3, Sell, 7, 1, 0, 0)
    ensures BookOk(Sell, levels) && Priced(levels) && PricedList(Flatten(levels))
    ensures BuyFills(levels, 1, 9, p) == [Fill(first, 1, false)] != BuyReference(Flatten(levels), 1, 9, p)
  {
    ProgramMarket(p);
    DustAtSix(first, next, p);
    HiddenAsk(first, gone, next, Level(7, 1, [next], 0), Level(6, 1, [first, gone], 1), p, 9);
  }

  lemma {:induction false} TwoLevels(side: Direction, l: Level, m: Level)
    requires LevelOk(side, l) == true && LevelOk(side, m) == true && Key(side, l.price) < Key(side, m.price)
    ensures BookOk(side, [l, m]) == true
  {
    assert [l, m][0] == l && [l, m][1] == m;
  }

  lemma {:induction false} TenthRates(n: nat, price: nat, p: MarketPrecision)
    requires TenthTicks(p) && price > 0
    ensures BaseToQuote(n, price, p) == n * price / 10 && QuoteToBase(n, price, p) == n * 10 / price
  {
    ConversionsAreFloors(n, price, p);
    TenthRatio(n, price, p.baseLot, p.tick);
  }

  lemma {:induction false} TenthRatio(n: nat, price: nat, lot: nat, tick: nat)
    requires lot > 0 && tick > 0 && price > 0
    ensures lot * (10 * tick) > 0 && n * (lot * price * tick) / (lot * (10 * tick)) == n * price / 10
    ensures lot * price * tick > 0 && n * (lot * (10 * tick)) / (lot * price * tick) == n * 10 / price
  {
    var c := lot * tick;
    assert lot * (10 * tick) == 10 * c && lot * price * tick == price * c;
    assert n * (price * c) == n * price * c && n * (10 * c) == n * 10 * c;
    Cancels(n * price, 10, c);
    Cancels(n * 10, price, c);
  }

  lemma {:induction false} Cancels(a: nat, b: nat, c: nat)
    requires b > 0 && c > 0
    ensures b * c > 0 && (a * c) / (b * c) == a / b
  {
    var q, r := a / b, a % b;
    MulLe(r + 1, b, c);
    Expand(a, q, b, r, c);
    UniqueQuotient(a * c, b * c, q);
  }

  lemma {:induction false} Expand(a: nat, q: nat, b: nat, r: nat, c: nat)
    requires a == q * b + r
    ensures a * c == q * (b * c) + r * c && (r + 1) * c == r * c + c
  {
  }

  lemma {:induction false} FirstFill(first: LimitOrder, taker: Account, p: MarketPrecision)
    requires Remaining(first) == 1 && first.account != taker && BaseToQuote(1, first.price, p) == 0
    ensures Greedy([first], 1, Some(taker)) == [Fill(first, 1, false)]
    ensures AllQuote(Greedy([first], 1, Some(taker)), p) == 0
  {
    assert [first][1..] == [];
    var g := Greedy([first], 1, Some(taker));
    assert g == [Fill(first, 1, false)] + Greedy([], 0, Some(taker));
    assert g[0] == Fill(first, 1, false) && g[1..] == [];
    assert Quote(g[1..], true, p) == 0 && Quote(g[1..], false, p) == 0;
  }

  // ---------- a cancel loses another order ----------

  /** `kept` has as much left as `mine` traded with its owner: cancelling `mine` drops both. */
  lemma {:induction false} CancelLosesOrder(mine: LimitOrder, kept: LimitOrder, l: Level, levels': seq<Level>)
    requires mine == Order(1, 0, Open, 1, Sell, 6, 10, 0, 5) && kept == Order(2, 0, Open, 2, Sell, 6, 5, 0, 0)
    requires l == Level(6, 10, [mine, kept], 0) && Withdrawn([l], mine, levels') == true
    ensures BookOk(Sell, [l]) == true && CurrentCopy(Flatten([l]), mine) && CancelFits(Flatten([l]), mine)
    ensures kept in Flatten([l]) && levels' == []
  {
    LosesOrder(mine, kept, l, levels');
  }

  lemma {:induction false} LosesOrder(mine: LimitOrder, kept: LimitOrder, l: Level, levels': seq<Level>)
    requires mine.price == kept.price && mine.dir == kept.dir == Sell && mine.id < kept.id && !Dead(mine) && !Dead(kept)
    requires Remaining(mine) > 0 && Remaining(kept) == mine.selfFilled > 0
    requires l == Level(mine.price, Remaining(mine) + Remaining(kept), [mine, kept], 0) && Withdrawn([l], mine, levels')
    ensures BookOk(Sell, [l]) == true && CurrentCopy(Flatten([l]), mine) && CancelFits(Flatten([l]), mine)
    ensures kept in Flatten([l]) && levels' == []
  {
    TwoOrders(mine, kept, l);
    PeerOf(mine, kept);
    var m, k :| WithdrawnAt([l], mine, m, k, levels');
  }

  lemma {:induction false} TwoOrders(mine: LimitOrder, kept: LimitOrder, l: Level)
    requires mine.price == kept.price && mine.dir == kept.dir == Sell && mine.id < kept.id && !Dead(mine) && !Dead(kept)
    requires Remaining(mine) > 0 && Remaining(kept) > 0
    requires l == Level(mine.price, Remaining(mine) + Remaining(kept), [mine, kept], 0)
    ensures BookOk(Sell, [l]) == true && Flatten([l]) == [mine, kept]
  {
    PairLevel(Sell, mine, kept, l);
    FlattenSmall(l, l);
    assert [l][0] == l;
  }

  lemma {:induction false} PeerOf(mine: LimitOrder, kept: LimitOrder)
    requires mine.price == kept.price && mine.id != kept.id
    ensures Peers([mine, kept], mine) == [kept] && Volume([kept]) == Remaining(kept)
  {
    assert [mine, kept][1..] == [kept] && [kept][1..] == [];
    assert Peers([kept], mine) == [kept] + Peers([], mine);
    assert Peers([mine, kept], mine) == [] + Peers([kept], mine);
    VolumePair(kept, kept);
  }
}
