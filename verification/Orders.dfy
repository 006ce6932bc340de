/** Orders, price levels, and the reference semantics of matching: a greedy pass over the
    list of live orders, best price first and oldest first within a price. */
module Orders {
  import opened LotMath

  datatype Option<+T> = None | Some(value: T)

  type Account = nat
  type Asset = nat

  datatype Direction = Buy | Sell
  datatype Status = Open | Cancelled | Rejected | Filled | PartiallyFilled

  datatype OrderData = Order(
    id: nat, market: nat, status: Status, account: Account, dir: Direction,
    price: nat, base: nat, filled: nat, selfFilled: nat)

  type LimitOrder = o: OrderData | o.filled + o.selfFilled <= o.base
    witness Order(0, 0, Open, 0, Buy, 0, 0, 0, 0)

  function Remaining(o: LimitOrder): nat { o.base - o.filled - o.selfFilled }

  predicate Dead(o: LimitOrder) { o.status == Cancelled }

  datatype Level = Level(price: nat, volume: nat, orders: seq<LimitOrder>, cancelled: nat)

  // ---------- price-time order ----------

  /** Larger keys are better prices for the side's counterparties; levels are kept in
      ascending key order, so the best level is the last one. */
  function Key(side: Direction, price: nat): int {
    var k: int := price;
    if side == Buy then k else -k
  }

  /** A resting order on `side` at `price` may trade with an incoming limit price. */
  predicate Acceptable(side: Direction, limit: nat, price: nat) {
    Key(side, limit) <= Key(side, price)
  }

  function Live(orders: seq<LimitOrder>): seq<LimitOrder> {
    if orders == [] then []
    else if Dead(orders[0]) then Live(orders[1..])
    else [orders[0]] + Live(orders[1..])
  }

  function Volume(list: seq<LimitOrder>): nat {
    if list == [] then 0 else Remaining(list[0]) + Volume(list[1..])
  }

  /** The live orders of one side, best price first and oldest first within a price. */
  function Flatten(levels: seq<Level>): seq<LimitOrder> {
    if levels == [] then []
    else Live(levels[|levels| - 1].orders) + Flatten(levels[..|levels| - 1])
  }

  ghost predicate Before(side: Direction, a: LimitOrder, b: LimitOrder) {
    Key(side, b.price) < Key(side, a.price) || (a.price == b.price && a.id < b.id)
  }

  ghost predicate PriceTimeSorted(side: Direction, list: seq<LimitOrder>) {
    forall i, j :: 0 <= i < j < |list| ==> Before(side, list[i], list[j])
  }

  // ---------- representation invariant ----------

  ghost predicate Ascending(orders: seq<LimitOrder>) {
    forall i, j :: 0 <= i < j < |orders| ==> orders[i].id < orders[j].id
  }

  /** Every entry rests at the level's price, and a live entry has something left. */
  ghost predicate EntriesOk(side: Direction, price: nat, orders: seq<LimitOrder>) {
    forall i :: 0 <= i < |orders| ==>
      orders[i].price == price && orders[i].dir == side && (!Dead(orders[i]) ==> Remaining(orders[i]) > 0)
  }

  ghost predicate LevelOk(side: Direction, l: Level) {
    && l.orders != []
    && EntriesOk(side, l.price, l.orders)
    && Ascending(l.orders)
    && l.volume == Volume(Live(l.orders))
    && l.cancelled == |l.orders| - |Live(l.orders)|
  }

  ghost predicate LevelsSorted(side: Direction, levels: seq<Level>) {
    forall i, j {:trigger Key(side, levels[i].price), Key(side, levels[j].price)} ::
      0 <= i < j < |levels| ==> Key(side, levels[i].price) < Key(side, levels[j].price)
  }

  ghost predicate BookOk(side: Direction, levels: seq<Level>) {
    && LevelsSorted(side, levels)
    && forall i {:trigger LevelOk(side, levels[i])} :: 0 <= i < |levels| ==> LevelOk(side, levels[i])
  }

  /** The id is newer than every id of the book. */
  ghost predicate FreshId(levels: seq<Level>, id: nat) {
    forall i, j :: 0 <= i < |levels| && 0 <= j < |levels[i].orders| ==> levels[i].orders[j].id < id
  }

  /** A cancelled entry with this id still sits in the book. */
  ghost predicate HasDead(levels: seq<Level>, id: nat) {
    exists i, j :: 0 <= i < |levels| && 0 <= j < |levels[i].orders| && EntryIs(levels[i].orders[j], id, true)
  }

  ghost predicate EntryIs(o: LimitOrder, id: nat, dead: bool) { o.id == id && Dead(o) == dead }

  /** `levels'` introduces no id and no cancelled entry that `levels` does not have. */
  ghost predicate NothingNew(levels: seq<Level>, levels': seq<Level>) {
    && (forall id :: FreshId(levels, id) ==> FreshId(levels', id))
    && (forall id :: HasDead(levels', id) ==> HasDead(levels, id))
  }

  // ---------- fills ----------

  /** One match of an incoming order with the resting `order`; `own` marks a self trade. */
  datatype FillData = Fill(order: LimitOrder, lots: nat, own: bool)

  type Fill = f: FillData | f.lots <= Remaining(f.order)
    witness Fill(Order(0, 0, Open, 0, Buy, 0, 0, 0, 0), 0, false)

  predicate Full(f: Fill) { f.lots == Remaining(f.order) }

  /** The resting order with the fill booked on it. */
  function Touched(f: Fill): LimitOrder {
    if f.own then f.order.(selfFilled := f.order.selfFilled + f.lots)
    else f.order.(filled := f.order.filled + f.lots)
  }

  /** What the sweep reports of a completely matched order: only self trades are booked. */
  function Done(f: Fill): LimitOrder {
    if f.own then Touched(f) else f.order
  }

  function DoneOrders(fills: seq<Fill>): seq<LimitOrder> {
    if fills == [] then []
    else if Full(fills[0]) then [Done(fills[0])] + DoneOrders(fills[1..])
    else DoneOrders(fills[1..])
  }

  datatype Residual = Residual(id: nat, account: Account, price: nat, filled: nat, selfFill: nat)

  function ResidualFor(f: Fill): Residual {
    Residual(f.order.id, f.order.account, f.order.price,
             if f.own then 0 else f.lots, if f.own then f.lots else 0)
  }

  function ResidualOf(fills: seq<Fill>): Option<Residual> {
    if fills == [] || Full(fills[|fills| - 1]) then None else Some(ResidualFor(fills[|fills| - 1]))
  }

  /** The list of live orders once the fills have been taken off its front. */
  function Leftover(list: seq<LimitOrder>, fills: seq<Fill>): seq<LimitOrder>
    requires |fills| <= |list|
  {
    Stub(fills) + list[|fills|..]
  }

  /** The partly filled order, if the last fill was partial. */
  function Stub(fills: seq<Fill>): seq<LimitOrder> {
    if fills == [] || Full(fills[|fills| - 1]) then [] else [Touched(fills[|fills| - 1])]
  }

  function Lots(fills: seq<Fill>, own: bool): nat {
    if fills == [] then 0
    else (if fills[0].own == own then fills[0].lots else 0) + Lots(fills[1..], own)
  }

  /** Quote lots of the fills, rounded down fill by fill. */
  function Quote(fills: seq<Fill>, own: bool, p: MarketPrecision): nat {
    if fills == [] then 0
    else (if fills[0].own == own then BaseToQuote(fills[0].lots, fills[0].order.price, p) else 0)
         + Quote(fills[1..], own, p)
  }

  function AllLots(fills: seq<Fill>): nat { Lots(fills, false) + Lots(fills, true) }

  function AllQuote(fills: seq<Fill>, p: MarketPrecision): nat {
    Quote(fills, false, p) + Quote(fills, true, p)
  }

  /** Price of the last fill that was a real trade. */
  function LastPrice(fills: seq<Fill>): Option<nat> {
    if fills == [] then None
    else if !fills[|fills| - 1].own then Some(fills[|fills| - 1].order.price)
    else LastPrice(fills[..|fills| - 1])
  }

  // ---------- reference matching ----------

  function Min(a: nat, b: nat): nat { if a < b then a else b }

  /** Match `size` base lots against the list, front to back. */
  function Greedy(list: seq<LimitOrder>, size: nat, taker: Option<Account>): seq<Fill> {
    if list == [] || size == 0 then []
    else
      var lots := Min(size, Remaining(list[0]));
      [Fill(list[0], lots, taker == Some(list[0].account))] + Greedy(list[1..], size - lots, taker)
  }

  function TakeAcceptable(side: Direction, list: seq<LimitOrder>, limit: nat): seq<LimitOrder> {
    if list == [] || !Acceptable(side, limit, list[0].price) then []
    else [list[0]] + TakeAcceptable(side, list[1..], limit)
  }

  /** The fills of an incoming limit order: greedy over the acceptable prefix, with no
      self-trade rule. */
  function LimitFills(side: Direction, list: seq<LimitOrder>, limit: nat, size: nat): seq<Fill> {
    Greedy(TakeAcceptable(side, list, limit), size, None)
  }

  /** The fills of a market sell over the list of bids. */
  function SellFills(list: seq<LimitOrder>, size: nat, taker: Account): seq<Fill> {
    Greedy(list, size, Some(taker))
  }

  /** The fills take orders off the front of the list, completely except for the last. */
  ghost predicate Matches(list: seq<LimitOrder>, fills: seq<Fill>) {
    && |fills| <= |list|
    && (forall i :: 0 <= i < |fills| ==> fills[i].order == list[i] && fills[i].lots > 0)
    && (forall i :: 0 <= i < |fills| - 1 ==> Full(fills[i]))
  }

  ghost predicate AllLeft(list: seq<LimitOrder>) {
    forall i :: 0 <= i < |list| ==> Remaining(list[i]) > 0
  }

  // ---------- the price-time list under insertion and removal ----------

  /** A new order queues behind every order with an equal or better price. */
  function Enqueue(side: Direction, list: seq<LimitOrder>, o: LimitOrder): seq<LimitOrder> {
    if list != [] && Key(side, o.price) <= Key(side, list[0].price)
    then [list[0]] + Enqueue(side, list[1..], o)
    else [o] + list
  }

  predicate SameSlot(a: LimitOrder, b: LimitOrder) { a.id == b.id && a.price == b.price }

  function Without(list: seq<LimitOrder>, o: LimitOrder): seq<LimitOrder> {
    if list == [] then []
    else if SameSlot(list[0], o) then Without(list[1..], o)
    else [list[0]] + Without(list[1..], o)
  }

  // ---------- lemmas ----------

  lemma {:induction false} AppendAssoc<T>(a: seq<T>, b: seq<T>, c: seq<T>)
    ensures a + (b + c) == (a + b) + c
  {
  }

  lemma {:induction false} LiveAppend(a: seq<LimitOrder>, b: seq<LimitOrder>)
    ensures Live(a + b) == Live(a) + Live(b)
  {
    if a == [] {
      assert a + b == b;
    } else {
      assert (a + b)[1..] == a[1..] + b;
      LiveAppend(a[1..], b);
    }
  }

  lemma {:induction false} LiveShorter(orders: seq<LimitOrder>)
    ensures |Live(orders)| <= |orders|
  {
    if orders != [] {
      LiveShorter(orders[1..]);
    }
  }

  /** Live orders are entries, in entry order. */
  lemma {:induction false} LiveIsEntry(orders: seq<LimitOrder>, k: nat) returns (i: nat)
    requires k < |Live(orders)|
    ensures k <= i < |orders| && orders[i] == Live(orders)[k] && !Dead(orders[i])
    ensures Live(orders[..i]) == Live(orders)[..k]
  {
    if Dead(orders[0]) {
      var j := LiveIsEntry(orders[1..], k);
      i := j + 1;
      assert orders[..i] == [orders[0]] + orders[1..][..j];
      LiveAppend([orders[0]], orders[1..][..j]);
    } else if k == 0 {
      i := 0;
    } else {
      var j := LiveIsEntry(orders[1..], k - 1);
      i := j + 1;
      assert orders[..i] == [orders[0]] + orders[1..][..j];
      LiveAppend([orders[0]], orders[1..][..j]);
    }
  }

  lemma {:induction false} EntryIsLive(orders: seq<LimitOrder>, i: nat) returns (k: nat)
    requires i < |orders| && !Dead(orders[i])
    ensures k < |Live(orders)| && Live(orders)[k] == orders[i]
  {
    assert orders == orders[..i] + orders[i..];
    LiveAppend(orders[..i], orders[i..]);
    k := |Live(orders[..i])|;
  }

  lemma {:induction false} VolumeAppend(a: seq<LimitOrder>, b: seq<LimitOrder>)
    ensures Volume(a + b) == Volume(a) + Volume(b)
  {
    if a == [] {
      assert a + b == b;
    } else {
      assert (a + b)[1..] == a[1..] + b;
      VolumeAppend(a[1..], b);
    }
  }

  lemma {:induction false} LotsAppend(a: seq<Fill>, b: seq<Fill>, own: bool)
    ensures Lots(a + b, own) == Lots(a, own) + Lots(b, own)
  {
    if a == [] {
      assert a + b == b;
    } else {
      assert (a + b)[1..] == a[1..] + b;
      LotsAppend(a[1..], b, own);
    }
  }

  lemma {:induction false} QuoteAppend(a: seq<Fill>, b: seq<Fill>, own: bool, p: MarketPrecision)
    ensures Quote(a + b, own, p) == Quote(a, own, p) + Quote(b, own, p)
  {
    if a == [] {
      assert a + b == b;
    } else {
      assert (a + b)[1..] == a[1..] + b;
      QuoteAppend(a[1..], b, own, p);
    }
  }

  lemma {:induction false} DoneAppend(a: seq<Fill>, b: seq<Fill>)
    ensures DoneOrders(a + b) == DoneOrders(a) + DoneOrders(b)
  {
    if a == [] {
      assert a + b == b;
    } else {
      assert (a + b)[1..] == a[1..] + b;
      DoneAppend(a[1..], b);
    }
  }

  lemma {:induction false} LastPriceAppend(a: seq<Fill>, f: Fill)
    ensures LastPrice(a + [f]) == if f.own then LastPrice(a) else Some(f.order.price)
  {
    assert (a + [f])[..|a|] == a;
  }

  lemma {:induction false} LastPriceConcat(a: seq<Fill>, b: seq<Fill>)
    ensures LastPrice(a + b) == if LastPrice(b) == None then LastPrice(a) else LastPrice(b)
  {
    if b == [] {
      assert a + b == a;
    } else {
      var n := |b| - 1;
      assert a + b == (a + b[..n]) + [b[n]];
      LastPriceConcat(a, b[..n]);
      LastPriceAppend(a + b[..n], b[n]);
    }
  }

  /** Greedy matching fills the whole size or the whole list, whichever is less. */
  lemma {:induction false} GreedyFillsMin(list: seq<LimitOrder>, size: nat, taker: Option<Account>)
    ensures AllLots(Greedy(list, size, taker)) == Min(size, Volume(list))
  {
    if list != [] && size > 0 {
      GreedyFillsMin(list[1..], size - Min(size, Remaining(list[0])), taker);
    }
  }

  lemma {:induction false} GreedyMatches(list: seq<LimitOrder>, size: nat, taker: Option<Account>)
    requires AllLeft(list)
    ensures Matches(list, Greedy(list, size, taker))
    ensures Leftover(list, Greedy(list, size, taker)) == [] ==> |Greedy(list, size, taker)| == |list|
  {
    if list != [] && size > 0 {
      var lots := Min(size, Remaining(list[0]));
      GreedyMatches(list[1..], size - lots, taker);
    }
  }

  /** Matching a concatenation is matching the first part and then the second. */
  lemma {:induction false} GreedyAppend(a: seq<LimitOrder>, b: seq<LimitOrder>, size: nat, taker: Option<Account>)
    ensures Greedy(a + b, size, taker) == Greedy(a, size, taker) + Greedy(b, size - Min(size, Volume(a)), taker)
  {
    if a == [] {
      assert a + b == b;
    } else if size > 0 {
      assert (a + b)[1..] == a[1..] + b;
      GreedyAppend(a[1..], b, size - Min(size, Remaining(a[0])), taker);
    }
  }

  lemma {:induction false} TakeAcceptableAppend(side: Direction, a: seq<LimitOrder>, b: seq<LimitOrder>, limit: nat)
    requires forall i :: 0 <= i < |a| ==> Acceptable(side, limit, a[i].price)
    ensures TakeAcceptable(side, a + b, limit) == a + TakeAcceptable(side, b, limit)
  {
    if a == [] {
      assert a + b == b;
    } else {
      assert (a + b)[1..] == a[1..] + b;
      TakeAcceptableAppend(side, a[1..], b, limit);
    }
  }

  lemma {:induction false} TakeAcceptableIsPrefix(side: Direction, list: seq<LimitOrder>, limit: nat)
    ensures TakeAcceptable(side, list, limit) <= list
    ensures forall i :: 0 <= i < |TakeAcceptable(side, list, limit)| ==> Acceptable(side, limit, list[i].price)
  {
    if list != [] && Acceptable(side, limit, list[0].price) {
      TakeAcceptableIsPrefix(side, list[1..], limit);
    }
  }

  lemma {:induction false} FlattenAppend(a: seq<Level>, b: seq<Level>)
    ensures Flatten(a + b) == Flatten(b) + Flatten(a)
  {
    if b == [] {
      assert a + b == a;
    } else {
      var n := |b| - 1;
      assert (a + b)[..|a + b| - 1] == a + b[..n];
      FlattenAppend(a, b[..n]);
    }
  }

  /** Each order of the flattened list is a live entry of some level. */
  lemma {:induction false} FlattenIsEntry(levels: seq<Level>, k: nat) returns (i: nat, j: nat)
    requires k < |Flatten(levels)|
    ensures i < |levels| && j < |levels[i].orders|
    ensures levels[i].orders[j] == Flatten(levels)[k] && !Dead(levels[i].orders[j])
  {
    var n := |levels| - 1;
    var top := Live(levels[n].orders);
    if k < |top| {
      i := n;
      j := LiveIsEntry(levels[n].orders, k);
    } else {
      i, j := FlattenIsEntry(levels[..n], k - |top|);
    }
  }

  /** ... and each live entry is in the flattened list. */
  lemma {:induction false} EntryInFlatten(levels: seq<Level>, i: nat, j: nat)
    requires i < |levels| && j < |levels[i].orders| && !Dead(levels[i].orders[j])
    ensures levels[i].orders[j] in Flatten(levels)
  {
    var n := |levels| - 1;
    if i == n {
      var k := EntryIsLive(levels[n].orders, j);
    } else {
      EntryInFlatten(levels[..n], i, j);
    }
  }

  lemma {:induction false} BookOkPrefix(side: Direction, levels: seq<Level>, n: nat)
    requires BookOk(side, levels) && n <= |levels|
    ensures BookOk(side, levels[..n])
  {
  }

  /** The flattened list of a well-formed book is in strict price-time order and every
      order in it rests on its side with something left. */
  lemma {:induction false} FlattenSorted(side: Direction, levels: seq<Level>)
    requires BookOk(side, levels)
    ensures PriceTimeSorted(side, Flatten(levels))
    ensures AllLeft(Flatten(levels))
    ensures forall o :: o in Flatten(levels) ==> o.dir == side && !Dead(o)
    ensures levels != [] ==> forall o :: o in Flatten(levels) ==> Acceptable(side, o.price, levels[|levels| - 1].price)
  {
    if levels != [] {
      var n := |levels| - 1;
      var top, rest := Live(levels[n].orders), Flatten(levels[..n]);
      FlattenSorted(side, levels[..n]);
      assert LevelOk(side, levels[n]);
      LiveSorted(side, levels[n].price, levels[n].orders);
      assert n > 0 ==> Key(side, levels[n - 1].price) < Key(side, levels[n].price);
      forall i, j | 0 <= i < j < |top + rest|
        ensures Before(side, (top + rest)[i], (top + rest)[j])
      {
        if i < |top| && |top| <= j {
          assert rest[j - |top|] in rest;
        }
      }
    }
  }

  lemma {:induction false} LiveSorted(side: Direction, price: nat, orders: seq<LimitOrder>)
    requires EntriesOk(side, price, orders) && Ascending(orders)
    ensures AllLeft(Live(orders)) && Ascending(Live(orders))
    ensures EntriesOk(side, price, Live(orders))
    ensures forall o :: o in Live(orders) ==> !Dead(o) && o in orders && o.price == price && o.dir == side
  {
    forall k | 0 <= k < |Live(orders)|
      ensures !Dead(Live(orders)[k]) && Live(orders)[k] in orders
      ensures Live(orders)[k].price == price && Live(orders)[k].dir == side && Remaining(Live(orders)[k]) > 0
    {
      var i := LiveIsEntry(orders, k);
    }
    LiveAscending(orders);
  }

  lemma {:induction false} LiveAscending(orders: seq<LimitOrder>)
    requires Ascending(orders)
    ensures Ascending(Live(orders))
  {
    if orders != [] {
      LiveAscending(orders[1..]);
      forall k | 0 <= k < |Live(orders[1..])|
        ensures orders[0].id < Live(orders[1..])[k].id
      {
        var i := LiveIsEntry(orders[1..], k);
      }
    }
  }
}
