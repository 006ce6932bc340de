/** A two-sided market: limit orders match and rest, market orders match, orders cancel. */
module SpotMarkets {
  import opened LotMath
  import opened Orders
  import opened BookEdits
  import opened Sweeps
  import opened Matching

  datatype Market = Market(
      base: Asset, quote: Asset, prec: MarketPrecision, bids: seq<Level>, asks: seq<Level>, last: Option<nat>)

  function Side(m: Market, dir: Direction): seq<Level> { if dir == Buy then m.bids else m.asks }

  function Opposite(dir: Direction): Direction { if dir == Buy then Sell else Buy }

  /** The best bid is strictly below the best ask. */
  ghost predicate NotCrossed(bids: seq<Level>, asks: seq<Level>) {
    bids != [] && asks != [] ==> Top(bids).price < Top(asks).price
  }

  ghost predicate MarketOk(m: Market) {
    BookOk(Buy, m.bids) && BookOk(Sell, m.asks) && NotCrossed(m.bids, m.asks)
  }

  function BestPrice(levels: seq<Level>): Option<nat> {
    if levels == [] then None else Some(Top(levels).price)
  }

  /** An incoming limit order meets the best price of the other side. */
  predicate Crosses(m: Market, dir: Direction, price: nat) {
    var levels := Side(m, Opposite(dir));
    levels != [] && Acceptable(Opposite(dir), price, Top(levels).price)
  }

  /** A newly created order, not yet known to the book. */
  ghost predicate NewOrder(m: Market, o: LimitOrder) {
    FreshId(Side(m, o.dir), o.id) && o.status == Open && o.base > 0 && o.filled == 0 && o.selfFilled == 0
  }

  /** What a match reports to the clearing house. */
  datatype Report = Report(filled: seq<LimitOrder>, residual: Option<Residual>, tally: Tally)

  function NewLast(last: Option<nat>, tally: Tally): Option<nat> {
    if tally.last == None then last else tally.last
  }

  /** The other attributes of a market never change. */
  ghost predicate SameMarket(m: Market, m': Market) {
    m.base == m'.base && m.quote == m'.quote && m.prec == m'.prec
  }

  ghost predicate SweptSide(m: Market, side: Direction, fills: seq<Fill>, m': Market, r: Report) {
    && Swept(side, Side(m, side), fills, m.prec, Sweep(Side(m', side), r.filled, r.residual, r.tally))
    && m'.last == NewLast(m.last, r.tally)
  }

  /** A limit order that does not cross rests untouched; one that crosses takes the greedy
      fills off the other side and rests its remainder, if any. */
  ghost predicate LimitNext(m: Market, o: LimitOrder, m': Market, r: Option<Report>)
    requires o.filled == 0 && o.selfFilled == 0
  {
    var opp := Opposite(o.dir);
    && SameMarket(m, m')
    && (r == None <==> !Crosses(m, o.dir, o.price))
    && if r == None then
         Side(m', opp) == Side(m, opp) && m'.last == m.last && Added(o.dir, Side(m, o.dir), o, Side(m', o.dir))
       else
         LimitTakes(m, o, m', r.value)
  }

  ghost predicate LimitTakes(m: Market, o: LimitOrder, m': Market, r: Report)
    requires o.filled == 0 && o.selfFilled == 0
  {
    var opp, fills := Opposite(o.dir), TargetFills(m, o);
    && SweptSide(m, opp, fills, m', r)
    && AllLots(fills) <= o.base
    && if AllLots(fills) < o.base
       then Added(o.dir, Side(m, o.dir), o.(filled := AllLots(fills)), Side(m', o.dir))
            && (Side(m', opp) != [] ==> !Acceptable(opp, o.price, Top(Side(m', opp)).price))
       else Side(m', o.dir) == Side(m, o.dir)
  }

  /** The fills an incoming limit order is entitled to. */
  function TargetFills(m: Market, o: LimitOrder): seq<Fill> {
    LimitFills(Opposite(o.dir), Flatten(Side(m, Opposite(o.dir))), o.price, o.base)
  }

  /** A market order takes its fills off the other side and never rests. */
  ghost predicate MarketNext(m: Market, dir: Direction, fills: seq<Fill>, m': Market, r: Report) {
    && SameMarket(m, m')
    && SweptSide(m, Opposite(dir), fills, m', r)
    && Side(m', dir) == Side(m, dir)
  }

  ghost function MarketFills(m: Market, dir: Direction, size: nat, taker: Account): seq<Fill>
    requires dir == Buy ==> Priced(m.asks)
  {
    if dir == Sell then SellFills(Flatten(m.bids), size, taker) else BuyFills(m.asks, size, taker, m.prec)
  }

  ghost predicate CancelNext(m: Market, o: LimitOrder, m': Market, unfilled: nat) {
    && SameMarket(m, m') && m'.last == m.last
    && Side(m', Opposite(o.dir)) == Side(m, Opposite(o.dir))
    && if Lists(Flatten(Side(m, o.dir)), o)
       then unfilled == o.base - o.filled && Withdrawn(Side(m, o.dir), o, Side(m', o.dir))
       else unfilled == 0 && Side(m', o.dir) == Side(m, o.dir)
  }

  // ---------- the market never crosses ----------

  /** The best price of `dir` is its old one or `price`, the best opposite price did not
      improve, and `price` does not reach it. */
  lemma {:induction false} StaysUncrossed(m: Market, m': Market, dir: Direction, price: nat)
    requires NotCrossed(m.bids, m.asks)
    requires var own, own' := Side(m, dir), Side(m', dir);
      own' != [] ==> Top(own').price == price || (own != [] && Top(own').price == Top(own).price)
    requires var opp, opp' := Side(m, Opposite(dir)), Side(m', Opposite(dir));
      opp' != [] ==> opp != [] && Acceptable(Opposite(dir), Top(opp').price, Top(opp).price)
                     && !Acceptable(Opposite(dir), price, Top(opp').price)
    ensures NotCrossed(m'.bids, m'.asks)
  {
  }

  lemma {:induction false} AddedTop(side: Direction, levels: seq<Level>, o: LimitOrder, levels': seq<Level>)
    requires Added(side, levels, o, levels')
    ensures BookOk(side, levels') == true && levels' != []
    ensures Top(levels').price == o.price || (levels != [] && Top(levels').price == Top(levels).price)
  {
  }

  lemma {:induction false} SweptTop(m: Market, side: Direction, fills: seq<Fill>, m': Market, r: Report)
    requires SweptSide(m, side, fills, m', r)
    ensures BookOk(side, Side(m', side)) == true
    ensures Side(m', side) != [] ==>
      Side(m, side) != [] && Acceptable(side, Top(Side(m', side)).price, Top(Side(m, side)).price)
  {
  }

  /** What rests of a limit order that matched `lots`. */
  ghost predicate RestsAfter(m: Market, o: LimitOrder, lots: nat, m': Market)
    requires o.filled == 0 && o.selfFilled == 0
  {
    && lots <= o.base
    && if lots < o.base
       then Added(o.dir, Side(m, o.dir), o.(filled := lots), Side(m', o.dir))
            && (Side(m', Opposite(o.dir)) != []
               ==> !Acceptable(Opposite(o.dir), o.price, Top(Side(m', Opposite(o.dir))).price))
       else Side(m', o.dir) == Side(m, o.dir)
  }

  lemma {:induction false} RestsPart(m: Market, o: LimitOrder, left: nat, m': Market)
    requires o.filled == 0 && o.selfFilled == 0 && 0 < left <= o.base
    requires Added(o.dir, Side(m, o.dir), o.(filled := o.base - left), Side(m', o.dir)) == true
    requires Side(m', Opposite(o.dir)) != []
      ==> !Acceptable(Opposite(o.dir), o.price, Top(Side(m', Opposite(o.dir))).price)
    ensures RestsAfter(m, o, o.base - left, m') == true
  {
  }

  /** Sweeping the other side and then resting the remainder is a limit order step. */
  lemma {:induction false} Taken(m: Market, o: LimitOrder, m': Market, r: Report, left: nat)
    requires o.filled == 0 && o.selfFilled == 0 && left == o.base - AllLots(TargetFills(m, o))
    requires SweptSide(m, Opposite(o.dir), TargetFills(m, o), m', r) == true
    requires left == 0 ==> Side(m', o.dir) == Side(m, o.dir)
    requires left > 0 ==> RestsAfter(m, o, o.base - left, m') == true
    ensures LimitTakes(m, o, m', r) == true
  {
  }

  lemma {:induction false} SweptSame(m: Market, side: Direction, fills: seq<Fill>, swept: Market, m': Market, r: Report)
    requires SweptSide(m, side, fills, swept, r) == true && Side(m', side) == Side(swept, side) && m'.last == swept.last
    ensures SweptSide(m, side, fills, m', r) == true
  {
  }

  /** Limit orders keep both sides in order and never cross the market, also when a partly
      executed order rests its remainder. */
  lemma {:induction false} LimitKeepsOk(m: Market, o: LimitOrder, m': Market, r: Option<Report>)
    requires MarketOk(m) && o.filled == 0 && o.selfFilled == 0 && LimitNext(m, o, m', r)
    ensures MarketOk(m') == true
  {
    var opp := Opposite(o.dir);
    if r == None {
      AddedTop(o.dir, Side(m, o.dir), o, Side(m', o.dir));
      StaysUncrossed(m, m', o.dir, o.price);
    } else {
      SweptTop(m, opp, TargetFills(m, o), m', r.value);
      if AllLots(TargetFills(m, o)) < o.base {
        AddedTop(o.dir, Side(m, o.dir), o.(filled := AllLots(TargetFills(m, o))), Side(m', o.dir));
        StaysUncrossed(m, m', o.dir, o.price);
      }
    }
  }

  lemma {:induction false} MarketKeepsOk(m: Market, dir: Direction, fills: seq<Fill>, m': Market, r: Report)
    requires MarketOk(m) && MarketNext(m, dir, fills, m', r)
    ensures MarketOk(m')
  {
  }

  /** The cancel carries a current copy, and its level's volume can bear it. */
  ghost predicate Withdrawable(m: Market, o: LimitOrder) {
    CurrentCopy(Flatten(Side(m, o.dir)), o) && CancelFits(Flatten(Side(m, o.dir)), o)
  }

  /** An order that never traded with its owner always fits. */
  lemma {:induction false} ExactFits(m: Market, o: LimitOrder)
    requires Exact(Flatten(Side(m, o.dir)), o)
    ensures Withdrawable(m, o) == true
  {
  }

  /** A cancel with a current copy of an order that never traded with its owner. */
  ghost predicate Exact(list: seq<LimitOrder>, o: LimitOrder) { CurrentCopy(list, o) && NoSelfFills(list, o) }

  ghost predicate CancelExact(m: Market, o: LimitOrder, m': Market, unfilled: nat) {
    && CancelNext(m, o, m', unfilled)
    && (Lists(Flatten(Side(m, o.dir)), o) ==> Removed(o.dir, Side(m, o.dir), o, Side(m', o.dir)))
  }

  /** It removes exactly that order. */
  lemma {:induction false} CancelIsExact(m: Market, o: LimitOrder, m': Market, unfilled: nat)
    requires MarketOk(m) && CancelNext(m, o, m', unfilled) && Exact(Flatten(Side(m, o.dir)), o)
    ensures CancelExact(m, o, m', unfilled) == true
  {
    if Lists(Flatten(Side(m, o.dir)), o) {
      WithdrawnExact(o.dir, Side(m, o.dir), o, Side(m', o.dir));
    }
  }

  /** A cancel keeps the market in order and uncrossed exactly if it is safe for its level. */
  lemma {:induction false} CancelKeepsOk(m: Market, o: LimitOrder, m': Market, unfilled: nat)
    requires MarketOk(m) && CancelNext(m, o, m', unfilled) && CurrentCopy(Flatten(Side(m, o.dir)), o)
    ensures MarketOk(m') == CancelSafe(Flatten(Side(m, o.dir)), o)
    ensures CancelSafe(Flatten(Side(m, o.dir)), o) && Lists(Flatten(Side(m, o.dir)), o) ==>
      Thinned(o.dir, Side(m, o.dir), o, Side(m', o.dir)) == true
  {
    if Lists(Flatten(Side(m, o.dir)), o) {
      WithdrawnOkIff(o.dir, Side(m, o.dir), o, Side(m', o.dir));
    }
  }

  // ---------- the market object ----------

  class SpotMarket {
    const base: Asset
    const quote: Asset
    const prec: MarketPrecision
    var bids: seq<Level>
    var asks: seq<Level>
    var last: Option<nat>

    function State(): Market
      reads this
    {
      Market(base, quote, prec, bids, asks, last)
    }

    constructor (base: Asset, quote: Asset, prec: MarketPrecision)
      ensures State() == Market(base, quote, prec, [], [], None) && MarketOk(State())
    {
      this.base, this.quote, this.prec := base, quote, prec;
      bids, asks, last := [], [], None;
    }

    method SetLast(price: Option<nat>)
      modifies this`last
      ensures last == if price == None then old(last) else price
    {
      if price != None {
        last := price;
      }
    }

    method Rest(o: LimitOrder)
      requires BookOk(o.dir, Side(State(), o.dir)) && Addable(o.dir, Side(State(), o.dir), o)
      modifies this`bids, this`asks
      ensures Added(o.dir, old(Side(State(), o.dir)), o, Side(State(), o.dir))
      ensures Side(State(), Opposite(o.dir)) == old(Side(State(), Opposite(o.dir)))
    {
      if o.dir == Buy {
        bids := AddOrder(Buy, bids, o);
      } else {
        asks := AddOrder(Sell, asks, o);
      }
    }

    method SweepLimit(o: LimitOrder) returns (r: Report, left: nat)
      requires MarketOk(State())
      modifies this
      ensures SweptSide(old(State()), Opposite(o.dir), TargetFills(old(State()), o), State(), r)
      ensures left == o.base - AllLots(TargetFills(old(State()), o))
      ensures left > 0 && Side(State(), Opposite(o.dir)) != [] ==>
        !Acceptable(Opposite(o.dir), o.price, Top(Side(State(), Opposite(o.dir))).price)
      ensures Side(State(), o.dir) == old(Side(State(), o.dir))
    {
      var s;
      if o.dir == Buy {
        s, left := ExecuteLimit(Sell, asks, o.price, o.base, prec);
        asks := s.levels;
      } else {
        s, left := ExecuteLimit(Buy, bids, o.price, o.base, prec);
        bids := s.levels;
      }
      SetLast(s.tally.last);
      r := Report(s.filled, s.residual, s.tally);
    }

    /** Match a limit order if it crosses the best price, and rest what remains of it. */
    method AddLimitOrder(o: LimitOrder) returns (r: Option<Report>)
      requires MarketOk(State()) == true && NewOrder(State(), o) == true
      modifies this
      ensures LimitNext(old(State()), o, State(), r) == true
      ensures MarketOk(State()) == true
    {
      ghost var m := State();
      var best := BestPrice(if o.dir == Buy then asks else bids);
      if best == None || !Acceptable(Opposite(o.dir), o.price, best.value) {
        Rest(o);
        r := None;
      } else {
        var report := MatchAndRest(o);
        r := Some(report);
      }
      LimitKeepsOk(m, o, State(), r);
    }

    /** The crossing case of a limit order. */
    method MatchAndRest(o: LimitOrder) returns (r: Report)
      requires MarketOk(State()) == true && NewOrder(State(), o) == true && Crosses(State(), o.dir, o.price)
      modifies this
      ensures LimitTakes(old(State()), o, State(), r) == true
    {
      ghost var m := State();
      var left;
      r, left := SweepLimit(o);
      ghost var swept := State();
      if left > 0 {
        SweptTop(m, Opposite(o.dir), TargetFills(m, o), swept, r);
        Rest(o.(filled := o.base - left));
        RestsPart(m, o, left, State());
        SweptSame(m, Opposite(o.dir), TargetFills(m, o), swept, State(), r);
      }
      Taken(m, o, State(), r, left);
    }

    /** Match a market order: `size` is base lots for a sell and quote lots for a buy. */
    method HandleMarketOrder(dir: Direction, size: nat, taker: Account) returns (r: Report)
      requires MarketOk(State()) == true && (dir == Buy ==> Priced(asks) == true)
      modifies this
      ensures MarketNext(old(State()), dir, MarketFills(old(State()), dir, size, taker), State(), r) == true
      ensures MarketOk(State()) == true
      ensures dir == Buy ==> r.tally.quote + r.tally.ownQuote <= size
      ensures dir == Sell ==> r.tally.lots + r.tally.ownLots <= size
    {
      ghost var m := State();
      var s, left;
      if dir == Sell {
        s, left := ExecuteMarketSell(bids, size, taker, prec);
        bids := s.levels;
      } else {
        s, left := ExecuteMarketBuy(asks, size, taker, prec);
        asks := s.levels;
      }
      SetLast(s.tally.last);
      r := Report(s.filled, s.residual, s.tally);
      MarketKeepsOk(m, dir, MarketFills(m, dir, size, taker), State(), r);
    }

    /** Cancel a resting order and report its unfilled size. */
    method Cancel(o: LimitOrder) returns (unfilled: nat)
      requires MarketOk(State()) == true && Withdrawable(State(), o) == true
      modifies this`bids, this`asks
      ensures CancelNext(old(State()), o, State(), unfilled) == true
      ensures MarketOk(State()) == old(CancelSafe(Flatten(Side(State(), o.dir)), o))
    {
      ghost var m := State();
      if o.dir == Buy {
        bids, unfilled := CancelOrder(Buy, bids, o);
      } else {
        asks, unfilled := CancelOrder(Sell, asks, o);
      }
      CancelKeepsOk(m, o, State(), unfilled);
    }
  }
}
