/** The outer loops: limit orders, market sells and market buys against one side. */
module Matching {
  import opened LotMath
  import opened Orders
  import opened Sweeps

  function Top(levels: seq<Level>): Level
    requires levels != []
  {
    levels[|levels| - 1]
  }

  function Below(levels: seq<Level>): seq<Level>
    requires levels != []
  {
    levels[..|levels| - 1]
  }

  /** A sweep between levels: what is left of the book is a prefix of it. */
  ghost predicate Paused(side: Direction, levels: seq<Level>, s: Sweep, fs: seq<Fill>, p: MarketPrecision) {
    && s.residual == None && s.tally == TallyOf(fs, p)
    && s.levels <= levels
    && BookOk(side, s.levels)
    && Between(side, levels, |s.levels|, fs, s.filled)
  }

  function Start(levels: seq<Level>): Sweep { Sweep(levels, [], None, Tally(0, 0, 0, 0, None)) }

  lemma {:induction false} Begins(side: Direction, levels: seq<Level>, p: MarketPrecision)
    requires BookOk(side, levels)
    ensures Paused(side, levels, Start(levels), [], p)
  {
    assert levels[..|levels|] == levels;
  }

  lemma {:induction false} Ends(side: Direction, levels: seq<Level>, s: Sweep, fs: seq<Fill>, p: MarketPrecision)
    requires BookOk(side, levels) && Paused(side, levels, s, fs, p)
    ensures Swept(side, levels, fs, p, s)
  {
    assert levels[..|s.levels|] == s.levels;
    EndBetween(side, levels, |s.levels|, fs, s.filled, p);
  }

  /** Drain the front of the best level, keep its rest, and stop. */
  function Stopped(s: Sweep, size: nat, q: LevelSweep): Sweep
    requires s.levels != [] && q.drained <= |q.orders| && size <= Top(s.levels).volume
      && q.dead <= Top(s.levels).cancelled
  {
    Sweep(Below(s.levels) + [Cut(Top(s.levels), size, q)], s.filled
        + q.orders[..q.drained], q.residual, Sum(s.tally, q.tally))
  }

  /** Report the whole best level and remove it from the book. */
  function Popped(s: Sweep, q: LevelSweep): Sweep
    requires s.levels != []
  {
    Sweep(Below(s.levels), s.filled + q.orders, None, Sum(s.tally, q.tally))
  }

  lemma {:induction false} StopTop(side: Direction, levels: seq<Level>, s: Sweep, fs: seq<Fill>,
                                   size: nat, taker: Option<Account>, p: MarketPrecision, q: LevelSweep)
    requires BookOk(side, levels) && Paused(side, levels, s, fs, p) && s.levels != []
    requires SweptLevel(Top(s.levels).orders, size, taker, p, q) && q.drained < |Top(s.levels).orders|
    ensures size <= Top(s.levels).volume && q.dead <= Top(s.levels).cancelled
    ensures Swept(side, levels, fs + Greedy(Live(Top(s.levels).orders), size, taker), p, Stopped(s, size, q)) == true
  {
    var m := |s.levels|;
    assert levels[m - 1] == Top(s.levels) && levels[..m - 1] == Below(s.levels);
    StopInside(side, levels, m, fs, s.filled, size, taker, p, q);
  }

  lemma {:induction false} PopTop(side: Direction, levels: seq<Level>, s: Sweep, fs: seq<Fill>,
                                  size: nat, taker: Option<Account>, p: MarketPrecision, q: LevelSweep)
    requires BookOk(side, levels) && Paused(side, levels, s, fs, p) && s.levels != []
    requires SweptLevel(Top(s.levels).orders, size, taker, p, q) && q.drained == |Top(s.levels).orders|
    ensures Paused(side, levels, Popped(s, q), fs + Greedy(Live(Top(s.levels).orders), size, taker), p) == true
  {
    var m := |s.levels|;
    assert levels[m - 1] == Top(s.levels) && levels[..m - 1] == Below(s.levels);
    PopLevel(side, levels, m, fs, s.filled, size, taker, p, q);
    BookOkPrefix(side, levels, m - 1);
    TallySum(fs, Greedy(Live(Top(s.levels).orders), size, taker), p);
  }

  /** Sweep the best level: drain its front and stop, or take all of it and drop it. */
  method SweepTop(side: Direction, ghost levels: seq<Level>, s: Sweep, ghost fs: seq<Fill>,
                  size: nat, taker: Option<Account>, p: MarketPrecision)
    returns (s': Sweep, left: nat, stop: bool)
    requires BookOk(side, levels) && Paused(side, levels, s, fs, p) && s.levels != [] && size > 0
    ensures var g := Greedy(Live(Top(s.levels).orders), size, taker);
      if stop then Swept(side, levels, fs + g, p, s') == true
      else Paused(side, levels, s', fs + g, p) == true && s'.levels == Below(s.levels)
    ensures stop <==> !Consumed(Top(s.levels).orders, size)
    ensures left == size - Min(size, Volume(Live(Top(s.levels).orders)))
  {
    var l := Top(s.levels);
    TopEntries(side, s.levels);
    var q := SweepLevel(side, l.price, l.orders, size, taker, p);
    GreedyFillsMin(Live(l.orders), size, taker);
    left, stop := q.left, q.drained < |l.orders|;
    if stop {
      StopTop(side, levels, s, fs, size, taker, p, q);
      s' := Stopped(s, size, q);
    } else {
      PopTop(side, levels, s, fs, size, taker, p, q);
      s' := Popped(s, q);
    }
  }

  lemma {:induction false} TopEntries(side: Direction, levels: seq<Level>)
    requires BookOk(side, levels) && levels != []
    ensures EntriesOk(side, Top(levels).price, Top(levels).orders)
    ensures forall o :: o in Live(Top(levels).orders) ==> o.price == Top(levels).price
  {
    assert LevelOk(side, levels[|levels| - 1]);
    LiveSorted(side, Top(levels).price, Top(levels).orders);
  }

  // ---------- limit orders ----------

  lemma {:induction false} LimitFillsStep(side: Direction, levels: seq<Level>, limit: nat, left: nat)
    requires BookOk(side, levels) && levels != [] && Acceptable(side, limit, Top(levels).price)
    ensures var live := Live(Top(levels).orders);
      LimitFills(side, Flatten(levels), limit, left)
      == Greedy(live, left, None) + LimitFills(side, Flatten(Below(levels)), limit, left - Min(left, Volume(live)))
  {
    TopEntries(side, levels);
    LimitFillsAppend(side, Live(Top(levels).orders), Flatten(Below(levels)), limit, left);
  }

  lemma {:induction false} LimitFillsAppend(
      side: Direction, live: seq<LimitOrder>, rest: seq<LimitOrder>, limit: nat, left: nat)
    requires forall o :: o in live ==> Acceptable(side, limit, o.price)
    ensures LimitFills(side, live + rest, limit, left)
         == Greedy(live, left, None) + LimitFills(side, rest, limit, left - Min(left, Volume(live)))
  {
    TakeAcceptableAppend(side, live, rest, limit);
    GreedyAppend(live, TakeAcceptable(side, rest, limit), left, None);
  }

  lemma {:induction false} LimitStops(side: Direction, levels: seq<Level>, limit: nat, left: nat, fs: seq<Fill>)
    requires BookOk(side, levels)
    requires levels == [] || left == 0 || !Acceptable(side, limit, Top(levels).price)
    ensures fs + LimitFills(side, Flatten(levels), limit, left) == fs
  {
    if levels != [] && left > 0 {
      FlattenSorted(side, levels);
      var list := Flatten(levels);
      assert list != [] ==> list[0] in list;
    }
    assert LimitFills(side, Flatten(levels), limit, left) == [];
  }

  ghost predicate LimitInv(side: Direction, levels: seq<Level>, limit: nat, size: nat, p: MarketPrecision,
                           s: Sweep, left: nat, halt: bool, fs: seq<Fill>)
  {
    var target := LimitFills(side, Flatten(levels), limit, size);
    if halt then left == 0 && target == fs && Swept(side, levels, fs, p, s)
    else Paused(side, levels, s, fs, p) && target == fs + LimitFills(side, Flatten(s.levels), limit, left)
  }

  lemma {:induction false} LimitKept(side: Direction, levels: seq<Level>, limit: nat, size: nat, p: MarketPrecision,
                  s: Sweep, left: nat, fs: seq<Fill>, s': Sweep, left': nat, halt: bool)
    requires LimitInv(side, levels, limit, size, p, s, left, false, fs)
    requires s.levels != [] && Acceptable(side, limit, Top(s.levels).price)
    requires var g := Greedy(Live(Top(s.levels).orders), left, None);
      if halt then Swept(side, levels, fs + g, p, s') == true
      else Paused(side, levels, s', fs + g, p) == true && s'.levels == Below(s.levels)
    requires halt ==> left' == 0
    requires left' == left - Min(left, Volume(Live(Top(s.levels).orders)))
    ensures LimitInv(side, levels, limit, size, p, s', left', halt,
                     fs + Greedy(Live(Top(s.levels).orders), left, None)) == true
  {
    LimitTarget(side, s.levels, limit, left, fs, left');
  }

  /** The target splits at the best level. */
  lemma {:induction false} LimitTarget(
      side: Direction, levels: seq<Level>, limit: nat, left: nat, fs: seq<Fill>, left': nat)
    requires BookOk(side, levels) && levels != [] && Acceptable(side, limit, Top(levels).price)
    requires left' == left - Min(left, Volume(Live(Top(levels).orders)))
    ensures var g, rest := Greedy(Live(Top(levels).orders), left, None),
      LimitFills(side, Flatten(Below(levels)), limit, left');
      && fs + LimitFills(side, Flatten(levels), limit, left) == fs + g + rest
      && (left' == 0 ==> fs + g + rest == fs + g)
  {
    var g, rest := Greedy(Live(Top(levels).orders), left, None), LimitFills(side, Flatten(Below(levels)), limit, left');
    LimitFillsStep(side, levels, limit, left);
    AppendAssoc(fs, g, rest);
    if left' == 0 {
      LimitFillsNothing(side, Flatten(Below(levels)), limit, fs + g);
    }
  }

  lemma {:induction false} LimitEnds(side: Direction, levels: seq<Level>, limit: nat, size: nat, p: MarketPrecision,
                  s: Sweep, left: nat, halt: bool, fs: seq<Fill>)
    requires BookOk(side, levels) && LimitInv(side, levels, limit, size, p, s, left, halt, fs)
    requires s.levels == [] || left == 0 || !Acceptable(side, limit, Top(s.levels).price)
    ensures Swept(side, levels, LimitFills(side, Flatten(levels), limit, size), p, s)
  {
    if !halt {
      LimitStops(side, s.levels, limit, left, fs);
      Ends(side, levels, s, fs, p);
    }
  }

  /** Sweep a limit order of `size` base lots: exactly the greedy fills over the acceptable
      prefix of the price-time list; a remainder is left only when no acceptable level is. */
  method ExecuteLimit(side: Direction, levels: seq<Level>, limit: nat, size: nat, p: MarketPrecision)
    returns (s: Sweep, left: nat)
    requires BookOk(side, levels)
    ensures Swept(side, levels, LimitFills(side, Flatten(levels), limit, size), p, s) == true
    ensures left == size - AllLots(LimitFills(side, Flatten(levels), limit, size))
    ensures left > 0 && s.levels != [] ==> !Acceptable(side, limit, Top(s.levels).price)
  {
    s, left := Start(levels), size;
    ghost var fs: seq<Fill> := [];
    var halt := false;
    Begins(side, levels, p);
    while s.levels != [] && left > 0 && Acceptable(side, limit, Top(s.levels).price)
      invariant LimitInv(side, levels, limit, size, p, s, left, halt, fs) == true
      invariant AllLots(fs) + left == size
      decreases left > 0, |s.levels|
    {
      LotsOfTop(fs, Live(Top(s.levels).orders), left, None);
      ghost var s0, left0, fs0 := s, left, fs;
      s, left, halt := SweepTop(side, levels, s, fs, left, None, p);
      fs := fs + Greedy(Live(Top(s0.levels).orders), left0, None);
      LimitKept(side, levels, limit, size, p, s0, left0, fs0, s, left, halt);
    }
    LimitEnds(side, levels, limit, size, p, s, left, halt, fs);
    LimitTotal(side, levels, limit, size, p, s, left, halt, fs);
  }

  lemma {:induction false} LimitTotal(side: Direction, levels: seq<Level>, limit: nat, size: nat, p: MarketPrecision,
                   s: Sweep, left: nat, halt: bool, fs: seq<Fill>)
    requires LimitInv(side, levels, limit, size, p, s, left, halt, fs)
    requires s.levels == [] || left == 0 || !Acceptable(side, limit, Top(s.levels).price)
    ensures LimitFills(side, Flatten(levels), limit, size) == fs
  {
    if !halt {
      LimitStops(side, s.levels, limit, left, fs);
    }
  }

  lemma {:induction false} LimitFillsNothing(side: Direction, list: seq<LimitOrder>, limit: nat, fs: seq<Fill>)
    ensures fs + LimitFills(side, list, limit, 0) == fs
  {
  }

  lemma {:induction false} LotsOfTop(fs: seq<Fill>, live: seq<LimitOrder>, left: nat, taker: Option<Account>)
    ensures AllLots(fs + Greedy(live, left, taker)) == AllLots(fs) + Min(left, Volume(live))
  {
    GreedyFillsMin(live, left, taker);
    LotsAppend(fs, Greedy(live, left, taker), true);
    LotsAppend(fs, Greedy(live, left, taker), false);
  }

  /** The acceptable prefix holds every acceptable order of a price-time list, so a limit
      order fills the smaller of its size and the live volume at acceptable prices. */
  lemma {:induction false} AcceptablePrefixIsAll(side: Direction, list: seq<LimitOrder>, limit: nat, k: nat)
    requires PriceTimeSorted(side, list) && k < |list|
    ensures Acceptable(side, limit, list[k].price) <==> k < |TakeAcceptable(side, list, limit)|
  {
    TakeAcceptableIsPrefix(side, list, limit);
    if Acceptable(side, limit, list[0].price) {
      if k > 0 {
        AcceptablePrefixIsAll(side, list[1..], limit, k - 1);
      }
    } else if k > 0 {
      assert Before(side, list[0], list[k]);
    }
  }

  /** All orders of the list at acceptable prices, wherever they stand. */
  function AllAcceptable(side: Direction, list: seq<LimitOrder>, limit: nat): seq<LimitOrder> {
    if list == [] then []
    else (if Acceptable(side, limit, list[0].price) then [list[0]] else []) + AllAcceptable(side, list[1..], limit)
  }

  lemma {:induction false} NoneAcceptable(side: Direction, list: seq<LimitOrder>, limit: nat)
    requires forall k :: 0 <= k < |list| ==> !Acceptable(side, limit, list[k].price)
    ensures AllAcceptable(side, list, limit) == []
  {
    if list != [] {
      NoneAcceptable(side, list[1..], limit);
    }
  }

  lemma {:induction false} AcceptableFirst(side: Direction, list: seq<LimitOrder>, limit: nat)
    requires PriceTimeSorted(side, list)
    ensures TakeAcceptable(side, list, limit) == AllAcceptable(side, list, limit)
  {
    if list != [] {
      if Acceptable(side, limit, list[0].price) {
        AcceptableFirst(side, list[1..], limit);
      } else {
        forall k | 0 <= k < |list| ensures !Acceptable(side, limit, list[k].price) {
          AcceptablePrefixIsAll(side, list, limit, k);
        }
        NoneAcceptable(side, list, limit);
      }
    }
  }

  /** A limit order fills the smaller of its size and the live volume at acceptable prices. */
  lemma {:induction false} LimitFillsMin(side: Direction, levels: seq<Level>, limit: nat, size: nat)
    requires BookOk(side, levels)
    ensures AllLots(LimitFills(side, Flatten(levels), limit, size))
         == Min(size, Volume(AllAcceptable(side, Flatten(levels), limit)))
  {
    FlattenSorted(side, levels);
    AcceptableFirst(side, Flatten(levels), limit);
    GreedyFillsMin(TakeAcceptable(side, Flatten(levels), limit), size, None);
  }

  // ---------- market sells ----------

  lemma {:induction false} SellFillsStep(levels: seq<Level>, left: nat, taker: Account)
    requires levels != []
    ensures var live := Live(Top(levels).orders);
      SellFills(Flatten(levels), left, taker)
      == Greedy(live, left, Some(taker)) + SellFills(Flatten(Below(levels)), left - Min(left, Volume(live)), taker)
  {
    GreedyAppend(Live(Top(levels).orders), Flatten(Below(levels)), left, Some(taker));
  }

  ghost predicate SellInv(levels: seq<Level>, size: nat, taker: Account, p: MarketPrecision,
                          s: Sweep, left: nat, halt: bool, fs: seq<Fill>)
  {
    var target := SellFills(Flatten(levels), size, taker);
    if halt then left == 0 && target == fs && Swept(Buy, levels, fs, p, s)
    else Paused(Buy, levels, s, fs, p) && target == fs + SellFills(Flatten(s.levels), left, taker)
  }

  lemma {:induction false} SellFillsNothing(list: seq<LimitOrder>, taker: Account, fs: seq<Fill>)
    ensures fs + SellFills(list, 0, taker) == fs
  {
  }

  lemma {:induction false} SellKept(levels: seq<Level>, size: nat, taker: Account, p: MarketPrecision,
                 s: Sweep, left: nat, fs: seq<Fill>, s': Sweep, left': nat, halt: bool)
    requires SellInv(levels, size, taker, p, s, left, false, fs) && s.levels != []
    requires var g := Greedy(Live(Top(s.levels).orders), left, Some(taker));
      if halt then Swept(Buy, levels, fs + g, p, s') == true
      else Paused(Buy, levels, s', fs + g, p) == true && s'.levels == Below(s.levels)
    requires halt ==> left' == 0
    requires left' == left - Min(left, Volume(Live(Top(s.levels).orders)))
    ensures SellInv(levels, size, taker, p, s', left', halt,
                    fs + Greedy(Live(Top(s.levels).orders), left, Some(taker))) == true
  {
    SellTarget(s.levels, left, taker, fs, left');
  }

  lemma {:induction false} SellTarget(levels: seq<Level>, left: nat, taker: Account, fs: seq<Fill>, left': nat)
    requires levels != [] && left' == left - Min(left, Volume(Live(Top(levels).orders)))
    ensures var g, rest := Greedy(Live(Top(levels).orders), left, Some(taker)),
      SellFills(Flatten(Below(levels)), left', taker);
      && fs + SellFills(Flatten(levels), left, taker) == fs + g + rest
      && (left' == 0 ==> fs + g + rest == fs + g)
  {
    var g, rest := Greedy(Live(Top(levels).orders), left, Some(taker)), SellFills(Flatten(Below(levels)), left', taker);
    SellFillsStep(levels, left, taker);
    AppendAssoc(fs, g, rest);
    if left' == 0 {
      SellFillsNothing(Flatten(Below(levels)), taker, fs + g);
    }
  }

  lemma {:induction false} SellEnds(
      levels: seq<Level>, size: nat, taker: Account, p: MarketPrecision, s: Sweep, left: nat, halt: bool, fs: seq<Fill>)
    requires BookOk(Buy, levels) && SellInv(levels, size, taker, p, s, left, halt, fs)
    requires s.levels == [] || left == 0
    ensures Swept(Buy, levels, fs, p, s) && SellFills(Flatten(levels), size, taker) == fs
  {
    if !halt {
      assert fs + [] == fs;
      Ends(Buy, levels, s, fs, p);
    }
  }

  /** Sweep a market sell over the bids: exactly the greedy fills over the price-time list. */
  method ExecuteMarketSell(levels: seq<Level>, size: nat, taker: Account, p: MarketPrecision)
    returns (s: Sweep, left: nat)
    requires BookOk(Buy, levels)
    ensures Swept(Buy, levels, SellFills(Flatten(levels), size, taker), p, s) == true
    ensures left == size - AllLots(SellFills(Flatten(levels), size, taker))
  {
    s, left := Start(levels), size;
    ghost var fs: seq<Fill> := [];
    var halt := false;
    Begins(Buy, levels, p);
    while s.levels != [] && left > 0
      invariant SellInv(levels, size, taker, p, s, left, halt, fs) == true
      invariant AllLots(fs) + left == size
      decreases left > 0, |s.levels|
    {
      LotsOfTop(fs, Live(Top(s.levels).orders), left, Some(taker));
      ghost var s0, left0, fs0 := s, left, fs;
      s, left, halt := SweepTop(Buy, levels, s, fs, left, Some(taker), p);
      fs := fs + Greedy(Live(Top(s0.levels).orders), left0, Some(taker));
      SellKept(levels, size, taker, p, s0, left0, fs0, s, left, halt);
    }
    SellEnds(levels, size, taker, p, s, left, halt, fs);
  }

  // ---------- market buys ----------

  /** Converting quote to base divides by the price. */
  ghost predicate Priced(levels: seq<Level>) {
    forall i :: 0 <= i < |levels| ==> levels[i].price > 0
  }

  function Monus(a: nat, b: nat): nat { if b <= a then a - b else 0 }

  /** The fills of a market buy with a quote budget. At each level the remaining quote is
      converted to base lots at the level's price; the sweep goes on past a level only when
      every entry of it, dead ones included, is drained. */
  ghost function BuyFills(levels: seq<Level>, quote: nat, taker: Account, p: MarketPrecision): seq<Fill>
    requires Priced(levels)
  {
    if levels == [] || quote == 0 || QuoteToBase(quote, Top(levels).price, p) == 0 then []
    else
      var base := QuoteToBase(quote, Top(levels).price, p);
      var g := Greedy(Live(Top(levels).orders), base, Some(taker));
      if Consumed(Top(levels).orders, base)
      then g + BuyFills(Below(levels), Monus(quote, AllQuote(g, p)), taker, p)
      else g
  }

  /** Fills at prices up to `limit` cost at most what their total size costs at `limit`. */
  lemma {:induction false} QuoteUpperBound(fills: seq<Fill>, limit: nat, p: MarketPrecision)
    requires forall i :: 0 <= i < |fills| ==> fills[i].order.price <= limit
    ensures AllQuote(fills, p) <= BaseToQuote(AllLots(fills), limit, p)
  {
    if fills != [] {
      var f, rest := fills[0], fills[1..];
      QuoteUpperBound(rest, limit, p);
      QuoteMono(f.lots, f.lots, f.order.price, limit, p);
      SplitFill(f.lots, AllLots(rest), limit, p);
      assert AllLots(fills) == f.lots + AllLots(rest);
    }
  }

  /** k fills at prices down to `limit` earn at least what their total size earns at
      `limit`, less k - 1 quote lots of rounding. */
  lemma {:induction false} QuoteLowerBound(fills: seq<Fill>, limit: nat, p: MarketPrecision)
    requires fills != [] && forall i :: 0 <= i < |fills| ==> limit <= fills[i].order.price
    ensures AllQuote(fills, p) + |fills| - 1 >= BaseToQuote(AllLots(fills), limit, p)
  {
    var f, rest := fills[0], fills[1..];
    QuoteMono(f.lots, f.lots, limit, f.order.price, p);
    assert AllLots(fills) == f.lots + AllLots(rest);
    assert AllQuote(fills, p) == BaseToQuote(f.lots, f.order.price, p) + AllQuote(rest, p);
    if rest != [] {
      QuoteLowerBound(rest, limit, p);
      SplitFill(f.lots, AllLots(rest), limit, p);
    } else {
      assert AllLots(rest) == 0;
    }
  }

  lemma {:induction false} GreedyOrders(list: seq<LimitOrder>, size: nat, taker: Option<Account>)
    ensures |Greedy(list, size, taker)| <= |list|
    ensures forall i :: 0 <= i < |Greedy(list, size, taker)| ==> Greedy(list, size, taker)[i].order == list[i]
    ensures taker == None ==> forall i :: 0 <= i < |Greedy(list, size, taker)| ==> !Greedy(list, size, taker)[i].own
  {
    if list != [] && size > 0 {
      GreedyOrders(list[1..], size - Min(size, Remaining(list[0])), taker);
    }
  }

  /** One level of a market buy costs no more than the quote that was converted for it. */
  lemma {:induction false} LevelInBudget(levels: seq<Level>, quote: nat, taker: Option<Account>, p: MarketPrecision)
    requires BookOk(Sell, levels) && levels != [] && Top(levels).price > 0
    ensures var g := Greedy(Live(Top(levels).orders), QuoteToBase(quote, Top(levels).price, p), taker);
      AllQuote(g, p) <= quote
  {
    var l := Top(levels);
    var base := QuoteToBase(quote, l.price, p);
    var g := Greedy(Live(l.orders), base, taker);
    TopEntries(Sell, levels);
    GreedyOrders(Live(l.orders), base, taker);
    assert forall i :: 0 <= i < |g| ==> g[i].order in Live(l.orders);
    QuoteUpperBound(g, l.price, p);
    GreedyFillsMin(Live(l.orders), base, taker);
    QuoteMono(AllLots(g), base, l.price, l.price, p);
    RoundTripWithinBudget(quote, l.price, p);
  }

  ghost predicate BuyInv(levels: seq<Level>, quote: nat, taker: Account, p: MarketPrecision,
                         s: Sweep, left: nat, halt: bool, fs: seq<Fill>)
    requires Priced(levels)
  {
    var target := BuyFills(levels, quote, taker, p);
    if halt then target == fs && Swept(Sell, levels, fs, p, s)
    else Paused(Sell, levels, s, fs, p) && Priced(s.levels) && target == fs + BuyFills(s.levels, left, taker, p)
  }

  lemma {:induction false} BuyKept(levels: seq<Level>, quote: nat, taker: Account, p: MarketPrecision,
                s: Sweep, left: nat, fs: seq<Fill>, s': Sweep, left': nat, halt: bool)
    requires Priced(levels) && BuyInv(levels, quote, taker, p, s, left, false, fs)
    requires s.levels != [] && left > 0 && QuoteToBase(left, Top(s.levels).price, p) > 0
    requires var base := QuoteToBase(left, Top(s.levels).price, p);
      var g := Greedy(Live(Top(s.levels).orders), base, Some(taker));
      && (halt <==> !Consumed(Top(s.levels).orders, base))
      && left' == Monus(left, AllQuote(g, p))
      && (if halt then Swept(Sell, levels, fs + g, p, s')
          else Paused(Sell, levels, s', fs + g, p) && s'.levels == Below(s.levels))
    ensures var g := Greedy(Live(Top(s.levels).orders), QuoteToBase(left, Top(s.levels).price, p), Some(taker));
      BuyInv(levels, quote, taker, p, s', left', halt, fs + g) == true
  {
    var g := Greedy(Live(Top(s.levels).orders), QuoteToBase(left, Top(s.levels).price, p), Some(taker));
    if !halt {
      AppendAssoc(fs, g, BuyFills(Below(s.levels), left', taker, p));
    }
  }

  lemma {:induction false} BuyEnds(
      levels: seq<Level>, quote: nat, taker: Account, p: MarketPrecision, s: Sweep, left: nat, halt: bool,
          fs: seq<Fill>)
    requires BookOk(Sell, levels) && Priced(levels) && BuyInv(levels, quote, taker, p, s, left, halt, fs)
    requires halt || s.levels == [] || left == 0 || QuoteToBase(left, Top(s.levels).price, p) == 0
    ensures Swept(Sell, levels, fs, p, s) == true && BuyFills(levels, quote, taker, p) == fs
  {
    if !halt {
      assert fs + [] == fs;
      Ends(Sell, levels, s, fs, p);
    }
  }

  lemma {:induction false} QuoteConcat(a: seq<Fill>, b: seq<Fill>, p: MarketPrecision)
    ensures AllQuote(a + b, p) == AllQuote(a, p) + AllQuote(b, p)
  {
    QuoteAppend(a, b, true, p);
    QuoteAppend(a, b, false, p);
  }

  /** Sweep a market buy over the asks. The quote spent, self trades included, never
      exceeds the budget, so the remaining quote never underflows. */
  method ExecuteMarketBuy(levels: seq<Level>, quote: nat, taker: Account, p: MarketPrecision)
    returns (s: Sweep, left: nat)
    requires BookOk(Sell, levels) && Priced(levels)
    ensures Swept(Sell, levels, BuyFills(levels, quote, taker, p), p, s) == true
    ensures left + AllQuote(BuyFills(levels, quote, taker, p), p) == quote
  {
    s, left := Start(levels), quote;
    ghost var fs: seq<Fill> := [];
    var halt := false;
    Begins(Sell, levels, p);
    while !halt && s.levels != [] && left > 0
      invariant BuyInv(levels, quote, taker, p, s, left, halt, fs) == true
      invariant AllQuote(fs, p) + left == quote && s.tally == TallyOf(fs, p)
      decreases !halt, |s.levels|
    {
      var base := QuoteToBase(left, Top(s.levels).price, p);
      if base == 0 {
        break;
      }
      ghost var s0, left0, fs0 := s, left, fs;
      ghost var g := Greedy(Live(Top(s.levels).orders), base, Some(taker));
      LevelInBudget(s.levels, left, Some(taker), p);
      QuoteConcat(fs, g, p);
      var baseLeft;
      s, baseLeft, halt := SweepTop(Sell, levels, s, fs, base, Some(taker), p);
      fs := fs + g;
      SweptTally(Sell, levels, s, fs, p, halt);
      left := quote - s.tally.quote - s.tally.ownQuote;
      BuyKept(levels, quote, taker, p, s0, left0, fs0, s, left, halt);
    }
    BuyEnds(levels, quote, taker, p, s, left, halt, fs);
  }

  lemma {:induction false} SweptTally(
      side: Direction, levels: seq<Level>, s: Sweep, fs: seq<Fill>, p: MarketPrecision, halt: bool)
    requires if halt then Swept(side, levels, fs, p, s) else Paused(side, levels, s, fs, p)
    ensures s.tally == TallyOf(fs, p)
  {
  }
}
