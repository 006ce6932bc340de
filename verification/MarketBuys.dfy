/** When a market buy agrees with a greedy pass over the live orders. */
module MarketBuys {
  import opened LotMath
  import opened Orders
  import opened Sweeps
  import opened Matching

  ghost predicate PricedList(list: seq<LimitOrder>) {
    forall i :: 0 <= i < |list| ==> list[i].price > 0
  }

  /** The orders at the front of the list that share its first price. */
  function SamePrice(list: seq<LimitOrder>, price: nat): seq<LimitOrder> {
    if list == [] || list[0].price != price then [] else [list[0]] + SamePrice(list[1..], price)
  }

  lemma {:induction false} SamePriceSplit(live: seq<LimitOrder>, rest: seq<LimitOrder>, price: nat)
    requires forall o :: o in live ==> o.price == price
    requires rest != [] ==> rest[0].price != price
    ensures SamePrice(live + rest, price) == live
  {
    if live == [] {
      assert live + rest == rest;
    } else {
      assert live[0] in live;
      assert (live + rest)[1..] == live[1..] + rest && (live + rest)[0] == live[0];
      SamePriceSplit(live[1..], rest, price);
    }
  }

  lemma {:induction false} SamePriceShorter(list: seq<LimitOrder>, price: nat)
    ensures |SamePrice(list, price)| <= |list|
    ensures list != [] && list[0].price == price ==> SamePrice(list, price) != []
  {
    if list != [] && list[0].price == price {
      SamePriceShorter(list[1..], price);
    }
  }

  /** Greedy pass of a quote budget over the price-time list: at each price the remaining
      quote is converted to base lots and matched with the orders at that price; the pass
      goes on when those orders are used up. */
  ghost function BuyReference(list: seq<LimitOrder>, quote: nat, taker: Account, p: MarketPrecision): seq<Fill>
    requires PricedList(list)
    decreases |list|
  {
    if list == [] then []
    else
      var price := list[0].price;
      var base := QuoteToBase(quote, price, p);
      var group := SamePrice(list, price);
      var g := Greedy(group, base, Some(taker));
      SamePriceShorter(list, price);
      if base == 0 then []
      else if Volume(group) <= base then g + BuyReference(list[|group|..], Monus(quote, AllQuote(g, p)), taker, p)
      else g
  }

  /** The sweep stops early: at some level the converted base lots run out exactly at the
      last live entry, only cancelled entries follow it in that level, and the quote left
      over from rounding would still buy at the next live price. */
  ghost predicate Stalls(levels: seq<Level>, quote: nat, taker: Account, p: MarketPrecision)
    requires Priced(levels)
  {
    levels != [] && quote > 0 &&
    var base := QuoteToBase(quote, Top(levels).price, p);
    var live := Live(Top(levels).orders);
    var left := Monus(quote, AllQuote(Greedy(live, base, Some(taker)), p));
    && base > 0
    && if Consumed(Top(levels).orders, base) then Stalls(Below(levels), left, taker, p)
       else Volume(live) == base && Flatten(Below(levels)) != []
            && Flatten(Below(levels))[0].price > 0
            && QuoteToBase(left, Flatten(Below(levels))[0].price, p) > 0
  }

  lemma {:induction false} PricedFlatten(levels: seq<Level>)
    requires BookOk(Sell, levels) && Priced(levels)
    ensures PricedList(Flatten(levels))
  {
    forall k | 0 <= k < |Flatten(levels)| ensures Flatten(levels)[k].price > 0 {
      var i, j := FlattenIsEntry(levels, k);
      assert LevelOk(Sell, levels[i]);
    }
  }

  /** The reference split at the best level. */
  lemma {:induction false} ReferenceAtTop(levels: seq<Level>, quote: nat, taker: Account, p: MarketPrecision)
    requires BookOk(Sell, levels) && Priced(levels) && levels != []
    requires PricedList(Flatten(levels)) && PricedList(Flatten(Below(levels)))
    requires Live(Top(levels).orders) != []
    ensures var base := QuoteToBase(quote, Top(levels).price, p);
      var live := Live(Top(levels).orders);
      var g := Greedy(live, base, Some(taker));
      BuyReference(Flatten(levels), quote, taker, p)
      == if base == 0 then []
         else if Volume(live) <= base then g
             + BuyReference(Flatten(Below(levels)), Monus(quote, AllQuote(g, p)), taker, p)
         else g
  {
    var price := Top(levels).price;
    var live, rest := Live(Top(levels).orders), Flatten(Below(levels));
    TopEntries(Sell, levels);
    assert live[0] in live;
    assert (live + rest)[0] == live[0] && (live + rest)[|live|..] == rest;
    if rest != [] {
      NextPriceDiffers(levels);
    }
    SamePriceSplit(live, rest, price);
  }

  lemma {:induction false} NextPriceDiffers(levels: seq<Level>)
    requires BookOk(Sell, levels) && levels != [] && Flatten(Below(levels)) != []
    ensures Top(levels).price < Flatten(Below(levels))[0].price
  {
    var i, j := FlattenIsEntry(Below(levels), 0);
    assert Below(levels)[i] == levels[i];
    assert LevelOk(Sell, levels[i]);
    assert Key(Sell, levels[i].price) < Key(Sell, levels[|levels| - 1].price);
  }

  /** A budget that buys nothing at the best price buys nothing behind it. */
  lemma {:induction false} NothingBehind(levels: seq<Level>, quote: nat, taker: Account, p: MarketPrecision)
    requires BookOk(Sell, levels) && Priced(levels) && levels != [] && PricedList(Flatten(levels))
    requires QuoteToBase(quote, Top(levels).price, p) == 0
    ensures BuyReference(Flatten(levels), quote, taker, p) == []
  {
    if Flatten(levels) != [] {
      FlattenSorted(Sell, levels);
      var o := Flatten(levels)[0];
      assert o in Flatten(levels);
      BaseAntitone(quote, quote, Top(levels).price, o.price, p);
    }
  }

  /** One level of the comparison, when the level has live orders. */
  lemma {:induction false} RefinesAtTop(levels: seq<Level>, quote: nat, taker: Account, p: MarketPrecision)
    requires BookOk(Sell, levels) && Priced(levels) && levels != [] && quote > 0
    requires PricedList(Flatten(levels)) && PricedList(Flatten(Below(levels)))
    requires QuoteToBase(quote, Top(levels).price, p) > 0 && Live(Top(levels).orders) != []
    requires var left := Monus(quote,
      AllQuote(Greedy(Live(Top(levels).orders), QuoteToBase(quote, Top(levels).price, p), Some(taker)), p));
      && BuyFills(Below(levels), left, taker, p) <= BuyReference(Flatten(Below(levels)), left, taker, p)
      && (BuyFills(Below(levels), left, taker, p) == BuyReference(Flatten(Below(levels)), left, taker, p)
          <==> !Stalls(Below(levels), left, taker, p))
    ensures BuyFills(levels, quote, taker, p) <= BuyReference(Flatten(levels), quote, taker, p)
    ensures BuyFills(levels, quote, taker, p) == BuyReference(Flatten(levels), quote, taker, p)
       <==> !Stalls(levels, quote, taker, p)
  {
    var base := QuoteToBase(quote, Top(levels).price, p);
    var g := Greedy(Live(Top(levels).orders), base, Some(taker));
    var left := Monus(quote, AllQuote(g, p));
    var ref := BuyReference(Flatten(Below(levels)), left, taker, p);
    ReferenceAtTop(levels, quote, taker, p);
    if Consumed(Top(levels).orders, base) {
      SharedPrefix(g, BuyFills(Below(levels), left, taker, p), ref);
    } else if Volume(Live(Top(levels).orders)) == base {
      ReferenceNonEmpty(Flatten(Below(levels)), left, taker, p);
      SharedPrefix(g, [], ref);
      assert g + [] == g;
    }
  }

  lemma {:induction false} SharedPrefix(g: seq<Fill>, a: seq<Fill>, b: seq<Fill>)
    requires a <= b
    ensures g + a <= g + b && (g + a == g + b <==> a == b)
  {
    assert forall i :: 0 <= i < |a| ==> a[i] == (g + a)[|g| + i];
    assert forall i :: 0 <= i < |b| ==> b[i] == (g + b)[|g| + i];
  }

  /** ... and when it has none. */
  lemma {:induction false} RefinesAtDeadTop(levels: seq<Level>, quote: nat, taker: Account, p: MarketPrecision)
    requires Priced(levels) && levels != [] && quote > 0
    requires QuoteToBase(quote, Top(levels).price, p) > 0 && Live(Top(levels).orders) == []
    ensures BuyFills(levels, quote, taker, p) == BuyFills(Below(levels), quote, taker, p)
    ensures Flatten(levels) == Flatten(Below(levels))
    ensures Stalls(levels, quote, taker, p) <==> Stalls(Below(levels), quote, taker, p)
  {
    assert [] + BuyFills(Below(levels), quote, taker, p) == BuyFills(Below(levels), quote, taker, p);
    assert Consumed(Top(levels).orders, QuoteToBase(quote, Top(levels).price, p));
  }

  /** The sweep's fills are always a prefix of the greedy pass, and they are all of it
      exactly when the sweep does not stall on a dead tail. */
  lemma {:induction false} BuyRefinesGreedy(levels: seq<Level>, quote: nat, taker: Account, p: MarketPrecision)
    requires BookOk(Sell, levels) && Priced(levels)
    ensures PricedList(Flatten(levels))
    ensures BuyFills(levels, quote, taker, p) <= BuyReference(Flatten(levels), quote, taker, p)
    ensures BuyFills(levels, quote, taker, p) == BuyReference(Flatten(levels), quote, taker, p)
       <==> !Stalls(levels, quote, taker, p)
  {
    PricedFlatten(levels);
    if levels != [] {
      BookOkPrefix(Sell, levels, |levels| - 1);
      PricedFlatten(Below(levels));
      var base := QuoteToBase(quote, Top(levels).price, p);
      if base == 0 || quote == 0 {
        NoQuoteNoBase(Top(levels).price, p);
        NothingBehind(levels, quote, taker, p);
      } else if Live(Top(levels).orders) != [] {
        BuyRefinesGreedy(Below(levels), Monus(quote, AllQuote(Greedy(Live(Top(levels).orders), base, Some(taker)), p)),
            taker, p);
        RefinesAtTop(levels, quote, taker, p);
      } else {
        BuyRefinesGreedy(Below(levels), quote, taker, p);
        RefinesAtDeadTop(levels, quote, taker, p);
      }
    }
  }

  lemma {:induction false} NoQuoteNoBase(price: nat, p: MarketPrecision)
    requires price > 0
    ensures QuoteToBase(0, price, p) == 0
  {
  }

  lemma {:induction false} ReferenceNonEmpty(list: seq<LimitOrder>, quote: nat, taker: Account, p: MarketPrecision)
    requires PricedList(list)
    ensures BuyReference(list, quote, taker, p) != [] <==> list != [] && QuoteToBase(quote, list[0].price, p) > 0
  {
  }
}
