/** The three sweeps over one side of a book, proved against greedy matching on the
    flattened price-time list. */
module Sweeps {
  import opened LotMath
  import opened Orders

  /** Running totals of a sweep; self trades are kept apart. */
  datatype Tally = Tally(lots: nat, quote: nat, ownLots: nat, ownQuote: nat, last: Option<nat>)

  function TallyOf(fills: seq<Fill>, p: MarketPrecision): Tally {
    Tally(Lots(fills, false), Quote(fills, false, p), Lots(fills, true), Quote(fills, true, p), LastPrice(fills))
  }

  function Plus(t: Tally, f: Fill, p: MarketPrecision): Tally {
    var q := BaseToQuote(f.lots, f.order.price, p);
    if f.own then t.(ownLots := t.ownLots + f.lots, ownQuote := t.ownQuote + q)
    else t.(lots := t.lots + f.lots, quote := t.quote + q, last := Some(f.order.price))
  }

  function Sum(a: Tally, b: Tally): Tally {
    Tally(a.lots + b.lots, a.quote + b.quote, a.ownLots + b.ownLots, a.ownQuote + b.ownQuote,
          if b.last == None then a.last else b.last)
  }

  lemma {:induction false} TallySum(a: seq<Fill>, b: seq<Fill>, p: MarketPrecision)
    ensures TallyOf(a + b, p) == Sum(TallyOf(a, p), TallyOf(b, p))
  {
    LotsAppend(a, b, false);
    LotsAppend(a, b, true);
    QuoteAppend(a, b, false, p);
    QuoteAppend(a, b, true, p);
    LastPriceConcat(a, b);
  }

  lemma {:induction false} TallyPlus(a: seq<Fill>, f: Fill, p: MarketPrecision)
    ensures TallyOf(a + [f], p) == Plus(TallyOf(a, p), f, p)
  {
    TallySum(a, [f], p);
    assert [f][1..] == [] && [f][..0] == [];
    assert Lots([f], true) == if f.own then f.lots else 0;
    assert Lots([f], false) == if f.own then 0 else f.lots;
    assert Quote([f], true, p) == if f.own then BaseToQuote(f.lots, f.order.price, p) else 0;
    assert Quote([f], false, p) == if f.own then 0 else BaseToQuote(f.lots, f.order.price, p);
    assert LastPrice([f]) == if f.own then LastPrice([]) else Some(f.order.price);
  }

  // ---------- one level ----------

  datatype LevelSweep = LevelSweep(
    orders: seq<LimitOrder>, drained: nat, dead: nat, left: nat, tally: Tally, residual: Option<Residual>)

  ghost predicate AllFull(fills: seq<Fill>) {
    forall i :: 0 <= i < |fills| ==> Full(fills[i])
  }

  /** Entry by entry, the same orders up to their fill counters. */
  ghost predicate SameEntries(a: seq<LimitOrder>, b: seq<LimitOrder>) {
    && |a| == |b|
    && forall i :: 0 <= i < |a| ==> SameEntry(a[i], b[i])
  }

  ghost predicate SameEntry(a: LimitOrder, b: LimitOrder) {
    a == b.(filled := a.filled, selfFilled := a.selfFilled)
  }

  /** Progress of the scan: the fills booked so far, and what is still to be matched. */
  ghost predicate ScanInv(
    orders: seq<LimitOrder>, size: nat, taker: Option<Account>,
    orders': seq<LimitOrder>, i: nat, left: nat, fs: seq<Fill>)
  {
    && i <= |orders| && SameEntries(orders', orders)
    && orders'[i..] == orders[i..]
    && AllFull(fs)
    && Live(orders'[..i]) == DoneOrders(fs)
    && |DoneOrders(fs)| == |fs| <= i
    && |fs| <= |Live(orders)| && Live(orders)[|fs|..] == Live(orders[i..])
    && Greedy(Live(orders), size, taker) == fs + Greedy(Live(orders[i..]), left, taker)
    && AllLots(fs) + left == size
  }

  lemma {:induction false} ScanDead(orders: seq<LimitOrder>, size: nat, taker: Option<Account>,
                 orders': seq<LimitOrder>, i: nat, left: nat, fs: seq<Fill>)
    requires ScanInv(orders, size, taker, orders', i, left, fs) && i < |orders| && Dead(orders[i])
    ensures ScanInv(orders, size, taker, orders', i + 1, left, fs)
  {
    assert orders'[i] == orders'[i..][0] == orders[i..][0] == orders[i];
    assert orders'[..i + 1] == orders'[..i] + [orders'[i]];
    LiveAppend(orders'[..i], [orders'[i]]);
    assert orders[i..][1..] == orders[i + 1..] && orders'[i..][1..] == orders'[i + 1..];
  }

  /** The fill the scan books on the next live entry. */
  function NextFill(o: LimitOrder, left: nat, taker: Option<Account>): Fill {
    Fill(o, Min(left, Remaining(o)), taker == Some(o.account))
  }

  lemma {:induction false} ScanStep(orders: seq<LimitOrder>, size: nat, taker: Option<Account>,
                 orders': seq<LimitOrder>, i: nat, left: nat, fs: seq<Fill>)
    requires ScanInv(orders, size, taker, orders', i, left, fs)
    requires i < |orders| && !Dead(orders[i]) && left > 0
    ensures var f := NextFill(orders[i], left, taker);
      && |fs| < |Live(orders)| && Live(orders)[|fs|] == orders[i]
      && Live(orders)[|fs| + 1..] == Live(orders[i + 1..])
      && Greedy(Live(orders), size, taker) == (fs + [f]) + Greedy(Live(orders[i + 1..]), left - f.lots, taker)
      && AllLots(fs + [f]) + (left - f.lots) == size
      && orders'[i] == orders[i]
  {
    var o := orders[i];
    var f := NextFill(o, left, taker);
    assert orders'[i..][0] == orders[i..][0];
    LiveFrom(orders, i);
    var live := Live(orders[i..]);
    assert Live(orders)[|fs|..][1..] == Live(orders)[|fs| + 1..];
    GreedyHead(live, left, taker);
    assert fs + ([f] + Greedy(live[1..], left - f.lots, taker)) == (fs + [f]) + Greedy(live[1..], left - f.lots, taker);
    LotsPush(fs, f);
  }

  lemma {:induction false} LiveFrom(orders: seq<LimitOrder>, i: nat)
    requires i < |orders| && !Dead(orders[i])
    ensures Live(orders[i..]) == [orders[i]] + Live(orders[i + 1..]) && Live(orders[i..])[1..] == Live(orders[i + 1..])
  {
    assert orders[i..][1..] == orders[i + 1..];
  }

  lemma {:induction false} LotsPush(fs: seq<Fill>, f: Fill)
    ensures AllLots(fs + [f]) == AllLots(fs) + f.lots
  {
    LotsAppend(fs, [f], true);
    LotsAppend(fs, [f], false);
    assert [f][1..] == [];
    assert Lots([f], true) + Lots([f], false) == f.lots;
  }

  /** The scan moves past a completely matched entry. */
  lemma {:induction false} ScanFull(orders: seq<LimitOrder>, size: nat, taker: Option<Account>,
                 orders': seq<LimitOrder>, i: nat, left: nat, fs: seq<Fill>)
    requires ScanInv(orders, size, taker, orders', i, left, fs)
    requires i < |orders| && !Dead(orders[i]) && left > 0 && Full(NextFill(orders[i], left, taker))
    ensures var f := NextFill(orders[i], left, taker);
      ScanInv(orders, size, taker, orders'[i := Done(f)], i + 1, left - f.lots, fs + [f])
  {
    var f := NextFill(orders[i], left, taker);
    var next := orders'[i := Done(f)];
    ScanStep(orders, size, taker, orders', i, left, fs);
    DoneAppend(fs, [f]);
    assert DoneOrders([f]) == [Done(f)] + DoneOrders([]);
    assert next[..i + 1] == orders'[..i] + [Done(f)];
    LiveAppend(orders'[..i], [Done(f)]);
    assert Live([Done(f)]) == [Done(f)] + Live([]);
    assert next[i + 1..] == orders'[i..][1..] == orders[i..][1..] == orders[i + 1..];
  }

  ghost predicate SweptLevel(
      orders: seq<LimitOrder>, size: nat, taker: Option<Account>, p: MarketPrecision, r: LevelSweep) {
    var live := Live(orders);
    var fills := Greedy(live, size, taker);
    && SameEntries(r.orders, orders)
    && r.drained <= |orders| && |fills| <= |live|
    && Live(r.orders[..r.drained]) == DoneOrders(fills)
    && Live(r.orders[r.drained..]) == Leftover(live, fills)
    && r.dead == r.drained - |DoneOrders(fills)|
    && AllLots(fills) + r.left == size
    && r.tally == TallyOf(fills, p)
    && r.residual == ResidualOf(fills)
    && (r.drained < |orders| ==> r.left == 0)
    && (r.drained == |orders| <==> Consumed(orders, size))
  }

  /** The whole level is drained: its live volume is too small, or exactly used up with a
      live entry at the back. */
  ghost predicate Consumed(orders: seq<LimitOrder>, size: nat) {
    || Volume(Live(orders)) < size
    || (Volume(Live(orders)) == size && orders != [] && !Dead(orders[|orders| - 1]))
  }

  lemma {:induction false} ScanEnd(orders: seq<LimitOrder>, size: nat, taker: Option<Account>, p: MarketPrecision,
                orders': seq<LimitOrder>, left: nat, fs: seq<Fill>)
    requires ScanInv(orders, size, taker, orders', |orders|, left, fs) && left > 0
    ensures SweptLevel(orders, size, taker, p,
              LevelSweep(orders', |orders|, |orders| - |fs|, left, TallyOf(fs, p), None))
  {
    assert orders[|orders|..] == [] && orders'[|orders|..] == [] && orders'[..|orders|] == orders';
    assert fs + [] == fs;
    GreedyFillsMin(Live(orders), size, taker);
  }

  lemma {:induction false} ScanStopFull(orders: seq<LimitOrder>, size: nat, taker: Option<Account>, p: MarketPrecision,
                     orders': seq<LimitOrder>, i: nat, fs: seq<Fill>)
    requires ScanInv(orders, size, taker, orders', i, 0, fs) && AllLeft(Live(orders))
    requires 0 < i <= |orders| && !Dead(orders[i - 1]) && fs != []
    ensures SweptLevel(orders, size, taker, p, LevelSweep(orders', i, i - |fs|, 0, TallyOf(fs, p), None))
  {
    assert fs + [] == fs;
    assert Full(fs[|fs| - 1]);
    assert [] + Live(orders[i..]) == Live(orders[i..]);
    StopVolume(orders, size, taker, i, fs);
  }

  /** When the size runs out at the end of an entry, the level is consumed exactly if no
      entry follows. */
  lemma {:induction false} StopVolume(orders: seq<LimitOrder>, size: nat, taker: Option<Account>, i: nat, fs: seq<Fill>)
    requires AllLeft(Live(orders)) && Greedy(Live(orders), size, taker) == fs && fs != [] && Full(fs[|fs| - 1])
    requires 0 < i <= |orders| && !Dead(orders[i - 1]) && AllLots(fs) == size
    requires |fs| <= |Live(orders)| && Live(orders)[|fs|..] == Live(orders[i..])
    ensures i == |orders| <==> Consumed(orders, size)
  {
    var rest := Live(orders[i..]);
    assert Volume(rest) == Volume(Live(orders)) - size && size <= Volume(Live(orders)) by {
      LeftoverFacts(Live(orders), size, taker);
      GreedyFillsMin(Live(orders), size, taker);
      assert Leftover(Live(orders), fs) == [] + rest == rest;
    }
    StopBack(orders, i);
  }

  /** Nothing is left behind entry `i` exactly if nothing is there or only cancelled ones. */
  lemma {:induction false} StopBack(orders: seq<LimitOrder>, i: nat)
    requires 0 < i <= |orders| && !Dead(orders[i - 1]) && AllLeft(Live(orders))
    ensures i == |orders| <==> Volume(Live(orders[i..])) == 0 && !Dead(orders[|orders| - 1])
  {
    if i == |orders| {
      assert orders[i..] == [];
    } else if !Dead(orders[|orders| - 1]) {
      var k := EntryIsLive(orders[i..], |orders| - 1 - i);
      SomeVolume(Live(orders[i..]), k);
      var n := EntryIsLive(orders, |orders| - 1);
    }
  }

  lemma {:induction false} SomeVolume(list: seq<LimitOrder>, k: nat)
    requires k < |list|
    ensures Volume(list) >= Remaining(list[k])
  {
    if k > 0 {
      SomeVolume(list[1..], k - 1);
    }
  }

  lemma {:induction false} ScanStopPartial(
      orders: seq<LimitOrder>, size: nat, taker: Option<Account>, p: MarketPrecision,
                        orders': seq<LimitOrder>, i: nat, left: nat, fs: seq<Fill>)
    requires ScanInv(orders, size, taker, orders', i, left, fs)
    requires i < |orders| && !Dead(orders[i]) && left > 0 && !Full(NextFill(orders[i], left, taker))
    ensures var f := NextFill(orders[i], left, taker);
      SweptLevel(orders, size, taker, p,
        LevelSweep(orders'[i := Touched(f)], i, i - |fs|, 0, TallyOf(fs + [f], p), Some(ResidualFor(f))))
  {
    var f := NextFill(orders[i], left, taker);
    var next := orders'[i := Touched(f)];
    ScanStep(orders, size, taker, orders', i, left, fs);
    var fills := fs + [f];
    assert fills + [] == fills;
    assert Greedy(Live(orders), size, taker) == fills;
    DoneAppend(fs, [f]);
    assert DoneOrders([f]) == [] + DoneOrders([]);
    assert next[..i] == orders'[..i];
    assert next[i..] == [Touched(f)] + orders[i..][1..];
    assert orders[i..][1..] == orders[i + 1..];
    assert next[i..][1..] == orders[i + 1..];
    assert Live(next[i..]) == [Touched(f)] + Live(orders[i + 1..]);
    PartialVolume(orders, size, taker, fs, i, f);
  }

  lemma {:induction false} PartialVolume(
      orders: seq<LimitOrder>, size: nat, taker: Option<Account>, fs: seq<Fill>, i: nat, f: Fill)
    requires |fs| < |Live(orders)| && Live(orders)[|fs|] == f.order && !Full(f)
    requires Greedy(Live(orders), size, taker) == fs + [f]
    ensures Volume(Live(orders)) > size
  {
    var live := Live(orders);
    GreedyFillsMin(live, size, taker);
    assert (fs + [f])[|fs|] == f;
    if Volume(live) <= size {
      GreedyAllFull(live, size, taker);
    }
  }

  lemma {:induction false} GreedyAllFull(list: seq<LimitOrder>, size: nat, taker: Option<Account>)
    requires Volume(list) <= size
    ensures AllFull(Greedy(list, size, taker))
  {
    if list != [] && size > 0 {
      GreedyAllFull(list[1..], size - Min(size, Remaining(list[0])), taker);
    }
  }

  /** Match the incoming size with one live entry and book the fill. */
  method MatchEntry(o: LimitOrder, left: nat, taker: Option<Account>, price: nat, p: MarketPrecision, t: Tally)
    returns (lots: nat, o': LimitOrder, t': Tally, residual: Option<Residual>)
    requires o.price == price
    ensures var f := NextFill(o, left, taker);
      && lots == f.lots && t' == Plus(t, f, p)
      && o' == (if Full(f) then Done(f) else Touched(f))
      && residual == (if Full(f) then None else Some(ResidualFor(f)))
  {
    lots, o', residual := Min(left, Remaining(o)), o, None;
    var quote := BaseToQuote(lots, price, p);
    if taker == Some(o.account) {
      t' := t.(ownLots := t.ownLots + lots, ownQuote := t.ownQuote + quote);
      o' := o.(selfFilled := o.selfFilled + lots);
      if lots < Remaining(o) {
        residual := Some(Residual(o.id, o.account, price, 0, lots));
      }
    } else {
      t' := t.(lots := t.lots + lots, quote := t.quote + quote, last := Some(price));
      if lots < Remaining(o) {
        residual := Some(Residual(o.id, o.account, price, lots, 0));
        o' := o.(filled := o.filled + lots);
      }
    }
  }

  /** Where the scan of a level stands: `drained` entries are done with. */
  datatype Scan = Scan(
      orders: seq<LimitOrder>, drained: nat, dead: nat, left: nat, tally: Tally, residual: Option<Residual>)

  /** Either the scan is under way, or it stopped inside an entry with a residual. */
  ghost predicate Scanning(
      orders: seq<LimitOrder>, size: nat, taker: Option<Account>, p: MarketPrecision, s: Scan, fs: seq<Fill>) {
    if s.residual == None then
      && ScanInv(orders, size, taker, s.orders, s.drained, s.left, fs)
      && s.dead == s.drained - |fs| && s.tally == TallyOf(fs, p)
      && (s.left == 0 ==> fs != [] && s.drained > 0 && !Dead(orders[s.drained - 1]))
    else
      s.left == 0 && SweptLevel(orders, size, taker, p, LevelSweep(s.orders, s.drained, s.dead, 0, s.tally, s.residual))
  }

  lemma {:induction false} ScanBegins(orders: seq<LimitOrder>, size: nat, taker: Option<Account>, p: MarketPrecision)
    requires size > 0
    ensures Scanning(orders, size, taker, p, Scan(orders, 0, 0, size, Tally(0, 0, 0, 0, None), None), [])
  {
    assert orders[0..] == orders && orders[..0] == [];
  }

  lemma {:induction false} LivePositive(side: Direction, price: nat, orders: seq<LimitOrder>)
    requires EntriesOk(side, price, orders)
    ensures AllLeft(Live(orders))
  {
    forall k | 0 <= k < |Live(orders)| ensures Remaining(Live(orders)[k]) > 0 {
      var i := LiveIsEntry(orders, k);
    }
  }

  lemma {:induction false} ScanFinished(
      side: Direction, price: nat, orders: seq<LimitOrder>, size: nat, taker: Option<Account>,
                     p: MarketPrecision, s: Scan, fs: seq<Fill>)
    requires EntriesOk(side, price, orders)
    requires Scanning(orders, size, taker, p, s, fs) && (s.left == 0 || s.drained == |orders|)
    ensures SweptLevel(orders, size, taker, p, LevelSweep(s.orders, s.drained, s.dead, s.left, s.tally, s.residual))
  {
    if s.residual == None && s.left > 0 {
      ScanEnd(orders, size, taker, p, s.orders, s.left, fs);
    } else if s.residual == None {
      LivePositive(side, price, orders);
      ScanStopFull(orders, size, taker, p, s.orders, s.drained, fs);
    }
  }

  /** One step of the scan. */
  method ScanEntry(side: Direction, price: nat, orders: seq<LimitOrder>, size: nat, taker: Option<Account>,
                   p: MarketPrecision, s: Scan, ghost fs: seq<Fill>)
    returns (s': Scan, ghost fs': seq<Fill>)
    requires EntriesOk(side, price, orders)
    requires Scanning(orders, size, taker, p, s, fs) && s.left > 0 && s.drained < |orders|
    ensures Scanning(orders, size, taker, p, s', fs') == true
    ensures s'.left == 0 || s'.drained == s.drained + 1
  {
    var i := s.drained;
    if Dead(orders[i]) {
      ScanDead(orders, size, taker, s.orders, i, s.left, fs);
      return s.(drained := i + 1, dead := s.dead + 1), fs;
    }
    ghost var f := NextFill(orders[i], s.left, taker);
    TallyPlus(fs, f, p);
    var lots, o, t, residual := MatchEntry(orders[i], s.left, taker, price, p, s.tally);
    if lots < Remaining(orders[i]) {
      ScanStopPartial(orders, size, taker, p, s.orders, i, s.left, fs);
      return Scan(s.orders[i := o], i, s.dead, 0, t, residual), fs;
    }
    ScanFull(orders, size, taker, s.orders, i, s.left, fs);
    return Scan(s.orders[i := o], i + 1, s.dead, s.left - lots, t, None), fs + [f];
  }

  /** The inner loop of a sweep: scan one level from its oldest entry, skipping cancelled
      entries, until the size is used up. With no taker account there is no self-trade rule. */
  method SweepLevel(
      side: Direction, price: nat, orders: seq<LimitOrder>, size: nat, taker: Option<Account>, p: MarketPrecision)
    returns (r: LevelSweep)
    requires size > 0 && EntriesOk(side, price, orders)
    ensures SweptLevel(orders, size, taker, p, r) == true
  {
    var s := Scan(orders, 0, 0, size, Tally(0, 0, 0, 0, None), None);
    ghost var fs: seq<Fill> := [];
    ScanBegins(orders, size, taker, p);
    while s.drained < |orders| && s.left > 0
      invariant Scanning(orders, size, taker, p, s, fs) == true
      invariant s.drained <= |orders|
      decreases s.left > 0, |orders| - s.drained
    {
      s, fs := ScanEntry(side, price, orders, size, taker, p, s, fs);
    }
    ScanFinished(side, price, orders, size, taker, p, s, fs);
    return LevelSweep(s.orders, s.drained, s.dead, s.left, s.tally, s.residual);
  }

  // ---------- what is left of a list ----------

  lemma {:induction false} LeftoverFull(list: seq<LimitOrder>, f: Fill, g: seq<Fill>)
    requires list != [] && Full(f) && |g| <= |list[1..]|
    ensures Leftover(list, [f] + g) == Leftover(list[1..], g)
  {
    StubConcat([f], g);
    assert list[1..][|g|..] == list[|[f] + g|..];
  }

  lemma {:induction false} LeftoverPartial(list: seq<LimitOrder>, f: Fill)
    requires list != [] && !Full(f)
    ensures Leftover(list, [f]) == [Touched(f)] + list[1..]
  {
  }

  lemma {:induction false} GreedyHead(list: seq<LimitOrder>, size: nat, taker: Option<Account>)
    requires list != [] && size > 0
    ensures var f := NextFill(list[0], size, taker);
      && Greedy(list, size, taker) == [f] + Greedy(list[1..], size - f.lots, taker)
      && (!Full(f) ==> Greedy(list, size, taker) == [f])
  {
    var f := NextFill(list[0], size, taker);
    if !Full(f) {
      assert Greedy(list[1..], 0, taker) == [];
      assert [f] + [] == [f];
    }
  }

  /** What greedy matching leaves of a list, by recursion on the list. */
  function Rest(list: seq<LimitOrder>, size: nat, taker: Option<Account>): seq<LimitOrder> {
    if list == [] || size == 0 then list
    else
      var f := NextFill(list[0], size, taker);
      if Full(f) then Rest(list[1..], size - f.lots, taker) else [Touched(f)] + list[1..]
  }

  lemma {:induction false} LeftoverIsRest(list: seq<LimitOrder>, size: nat, taker: Option<Account>)
    requires AllLeft(list)
    ensures |Greedy(list, size, taker)| <= |list|
    ensures Leftover(list, Greedy(list, size, taker)) == Rest(list, size, taker)
  {
    if list == [] || size == 0 {
      assert Greedy(list, size, taker) == [];
    } else {
      var f := NextFill(list[0], size, taker);
      GreedyHead(list, size, taker);
      if Full(f) {
        LeftoverIsRest(list[1..], size - f.lots, taker);
        LeftoverFull(list, f, Greedy(list[1..], size - f.lots, taker));
      } else {
        LeftoverPartial(list, f);
      }
    }
  }

  lemma {:induction false} RestVolume(list: seq<LimitOrder>, size: nat, taker: Option<Account>)
    ensures Volume(Rest(list, size, taker)) == Volume(list) - Min(size, Volume(list))
  {
    if list != [] && size > 0 {
      RestVolume(list[1..], size - NextFill(list[0], size, taker).lots, taker);
    }
  }

  lemma {:induction false} RestCount(list: seq<LimitOrder>, size: nat, taker: Option<Account>)
    ensures |DoneOrders(Greedy(list, size, taker))| + |Rest(list, size, taker)| == |list|
  {
    if list != [] && size > 0 {
      RestCount(list[1..], size - NextFill(list[0], size, taker).lots, taker);
    }
  }

  lemma {:induction false} RestLeft(list: seq<LimitOrder>, size: nat, taker: Option<Account>)
    requires AllLeft(list)
    ensures AllLeft(Rest(list, size, taker))
  {
    if list != [] && size > 0 {
      RestLeft(list[1..], size - NextFill(list[0], size, taker).lots, taker);
    }
  }

  /** Matching conserves volume and orders: what is not filled is left over, and every
      order is either reported as done or left over with a remainder. */
  lemma {:induction false} LeftoverFacts(list: seq<LimitOrder>, size: nat, taker: Option<Account>)
    requires AllLeft(list)
    ensures |Greedy(list, size, taker)| <= |list|
    ensures Volume(Leftover(list, Greedy(list, size, taker))) == Volume(list) - Min(size, Volume(list))
    ensures |DoneOrders(Greedy(list, size, taker))| + |Leftover(list, Greedy(list, size, taker))| == |list|
    ensures AllLeft(Leftover(list, Greedy(list, size, taker)))
  {
    LeftoverIsRest(list, size, taker);
    RestVolume(list, size, taker);
    RestCount(list, size, taker);
    RestLeft(list, size, taker);
  }

  lemma {:induction false} SweptEntriesOk(side: Direction, price: nat, orders: seq<LimitOrder>, size: nat,
                                          taker: Option<Account>, p: MarketPrecision, r: LevelSweep)
    requires EntriesOk(side, price, orders) && Ascending(orders) && SweptLevel(orders, size, taker, p, r)
    ensures EntriesOk(side, price, r.orders[r.drained..]) && Ascending(r.orders[r.drained..])
  {
    var rest := r.orders[r.drained..];
    LivePositive(side, price, orders);
    LeftoverFacts(Live(orders), size, taker);
    forall i | 0 <= i < |rest|
      ensures rest[i].price == price && rest[i].dir == side && (!Dead(rest[i]) ==> Remaining(rest[i]) > 0)
    {
      assert SameEntry(r.orders[r.drained + i], orders[r.drained + i]);
      if !Dead(rest[i]) {
        var k := EntryIsLive(rest, i);
      }
    }
  }

  /** The level as the sweep leaves it when it stops inside it. */
  function Cut(l: Level, used: nat, r: LevelSweep): Level
    requires r.drained <= |r.orders| && used <= l.volume && r.dead <= l.cancelled
  {
    Level(l.price, l.volume - used, r.orders[r.drained..], l.cancelled - r.dead)
  }

  lemma {:induction false} CutCounts(side: Direction, price: nat, orders: seq<LimitOrder>, size: nat,
                                     taker: Option<Account>, p: MarketPrecision, r: LevelSweep)
    requires EntriesOk(side, price, orders) && Ascending(orders)
    requires SweptLevel(orders, size, taker, p, r) && r.drained < |orders|
    ensures Volume(Live(r.orders[r.drained..])) + size == Volume(Live(orders))
    ensures r.dead + |r.orders[r.drained..]| - |Live(r.orders[r.drained..])| == |orders| - |Live(orders)|
    ensures |Live(r.orders[r.drained..])| <= |r.orders[r.drained..]|
  {
    LivePositive(side, price, orders);
    LeftoverFacts(Live(orders), size, taker);
    GreedyFillsMin(Live(orders), size, taker);
    LiveShorter(r.orders[r.drained..]);
  }

  lemma {:induction false} CutOk(
      side: Direction, l: Level, size: nat, taker: Option<Account>, p: MarketPrecision, r: LevelSweep)
    requires LevelOk(side, l) && SweptLevel(l.orders, size, taker, p, r) && r.drained < |l.orders|
    ensures size <= l.volume && r.dead <= l.cancelled
    ensures LevelOk(side, Cut(l, size, r))
  {
    CutCounts(side, l.price, l.orders, size, taker, p, r);
    SweptEntriesOk(side, l.price, l.orders, size, taker, p, r);
  }

  // ---------- a whole side ----------

  datatype Sweep = Sweep(levels: seq<Level>, filled: seq<LimitOrder>, residual: Option<Residual>, tally: Tally)

  /** Exactly `fills` has been taken off the front of the price-time list. */
  ghost predicate TakenOff(side: Direction, levels: seq<Level>, fills: seq<Fill>, levels': seq<Level>) {
    && BookOk(side, levels')
    && NothingNew(levels, levels')
    && |fills| <= |Flatten(levels)| && Flatten(levels') == Leftover(Flatten(levels), fills)
    && (levels' != [] ==> levels != [] && Acceptable(side, levels'[|levels'| - 1].price, levels[|levels| - 1].price))
  }

  /** The reported orders and totals are those of `fills`; cancelled entries may be
      reported along with the filled ones. */
  ghost predicate Reports(levels: seq<Level>, fills: seq<Fill>, p: MarketPrecision, r: Sweep) {
    && Live(r.filled) == DoneOrders(fills)
    && (forall o :: o in r.filled && Dead(o) ==> HasDead(levels, o.id))
    && r.residual == ResidualOf(fills)
    && r.tally == TallyOf(fills, p)
  }

  ghost predicate Swept(side: Direction, levels: seq<Level>, fills: seq<Fill>, p: MarketPrecision, r: Sweep) {
    TakenOff(side, levels, fills, r.levels) && Reports(levels, fills, p, r)
  }

  /** Between levels: the first `m` levels are untouched, the others are consumed. */
  ghost predicate Between(side: Direction, levels: seq<Level>, m: nat, fs: seq<Fill>, filled: seq<LimitOrder>) {
    && m <= |levels| && AllFull(fs)
    && |fs| <= |Flatten(levels)| && Flatten(levels)[|fs|..] == Flatten(levels[..m])
    && Live(filled) == DoneOrders(fs)
    && (forall o :: o in filled && Dead(o) ==> HasDead(levels, o.id))
  }

  lemma {:induction false} PrefixNothingNew(levels: seq<Level>, m: nat)
    requires m <= |levels|
    ensures NothingNew(levels, levels[..m])
  {
    forall id | HasDead(levels[..m], id) ensures HasDead(levels, id) {
      var i, j :| 0 <= i < m && 0 <= j < |levels[..m][i].orders| && EntryIs(levels[..m][i].orders[j], id, true);
      assert EntryIs(levels[i].orders[j], id, true);
    }
  }

  /** The sweep ends between levels. */
  lemma {:induction false} EndBetween(side: Direction, levels: seq<Level>, m: nat, fs: seq<Fill>,
                                      filled: seq<LimitOrder>, p: MarketPrecision)
    requires BookOk(side, levels) && Between(side, levels, m, fs, filled)
    ensures Swept(side, levels, fs, p, Sweep(levels[..m], filled, None, TallyOf(fs, p)))
  {
    BookOkPrefix(side, levels, m);
    PrefixNothingNew(levels, m);
    assert fs != [] ==> Full(fs[|fs| - 1]);
    assert [] + Flatten(levels[..m]) == Flatten(levels[..m]);
    if 0 < m {
      assert Key(side, levels[m - 1].price) <= Key(side, levels[|levels| - 1].price);
    }
  }

  lemma {:induction false} DrainedDead(levels: seq<Level>, m: nat, orders: seq<LimitOrder>, k: nat)
    requires m < |levels| && SameEntries(orders, levels[m].orders) && k <= |orders|
    ensures forall o :: o in orders[..k] && Dead(o) ==> HasDead(levels, o.id)
  {
    forall i | 0 <= i < k && Dead(orders[i]) ensures HasDead(levels, orders[i].id) {
      assert SameEntry(orders[i], levels[m].orders[i]);
      assert EntryIs(levels[m].orders[i], orders[i].id, true);
    }
  }

  /** The last of the first `m` levels is consumed and dropped. */
  lemma {:induction false} PopLevel(side: Direction, levels: seq<Level>, m: nat, fs: seq<Fill>, filled: seq<LimitOrder>,
                                    size: nat, taker: Option<Account>, p: MarketPrecision, r: LevelSweep)
    requires BookOk(side, levels) && 0 < m && Between(side, levels, m, fs, filled)
    requires SweptLevel(levels[m - 1].orders, size, taker, p, r) && r.drained == |levels[m - 1].orders|
    ensures Between(side, levels, m - 1, fs + Greedy(Live(levels[m - 1].orders), size, taker),
                    filled + r.orders) == true
    ensures r.residual == None
  {
    var live := Live(levels[m - 1].orders);
    var g := Greedy(live, size, taker);
    GreedyAllFull(live, size, taker);
    ConsumedCovers(side, levels, m - 1, size, taker);
    assert r.orders[..|r.orders|] == r.orders;
    DrainedDead(levels, m - 1, r.orders, |r.orders|);
    BetweenNext(side, levels, m, fs, filled, g, r.orders);
  }

  lemma {:induction false} BetweenNext(
      side: Direction, levels: seq<Level>, m: nat, fs: seq<Fill>, filled: seq<LimitOrder>,
                                       g: seq<Fill>, drained: seq<LimitOrder>)
    requires 0 < m && Between(side, levels, m, fs, filled)
    requires AllFull(g) && |g| == |Live(levels[m - 1].orders)| && Live(drained) == DoneOrders(g)
    requires forall o :: o in drained && Dead(o) ==> HasDead(levels, o.id)
    ensures Between(side, levels, m - 1, fs + g, filled + drained) == true
  {
    NextList(levels, m, fs, g);
    LiveAppend(filled, drained);
    DoneAppend(fs, g);
  }

  lemma {:induction false} NextList(levels: seq<Level>, m: nat, fs: seq<Fill>, g: seq<Fill>)
    requires 0 < m <= |levels| && |fs| <= |Flatten(levels)| && Flatten(levels)[|fs|..] == Flatten(levels[..m])
    requires |g| == |Live(levels[m - 1].orders)|
    ensures |fs + g| <= |Flatten(levels)| && Flatten(levels)[|fs + g|..] == Flatten(levels[..m - 1])
  {
    var live, rest := Live(levels[m - 1].orders), Flatten(levels[..m - 1]);
    assert levels[..m][..m - 1] == levels[..m - 1];
    assert Flatten(levels[..m]) == live + rest;
    assert Flatten(levels)[|fs + g|..] == Flatten(levels)[|fs|..][|g|..];
  }

  lemma {:induction false} ConsumedCovers(
      side: Direction, levels: seq<Level>, m: nat, size: nat, taker: Option<Account>)
    requires BookOk(side, levels) && m < |levels| && Volume(Live(levels[m].orders)) <= size
    ensures |Greedy(Live(levels[m].orders), size, taker)| == |Live(levels[m].orders)|
  {
    assert LevelOk(side, levels[m]);
    LiveSorted(side, levels[m].price, levels[m].orders);
    GreedyCovers(Live(levels[m].orders), size, taker);
  }

  lemma {:induction false} GreedyCovers(list: seq<LimitOrder>, size: nat, taker: Option<Account>)
    requires AllLeft(list) && Volume(list) <= size
    ensures |Greedy(list, size, taker)| == |list|
  {
    if list != [] {
      GreedyCovers(list[1..], size - Remaining(list[0]), taker);
    }
  }

  /** The list after a stop inside level `m - 1`. */
  lemma {:induction false} StopList(levels: seq<Level>, m: nat, fs: seq<Fill>, g: seq<Fill>, l': Level)
    requires 0 < m <= |levels| && |fs| <= |Flatten(levels)|
    requires Flatten(levels)[|fs|..] == Flatten(levels[..m])
    requires |g| <= |Live(levels[m - 1].orders)| && Live(l'.orders) == Leftover(Live(levels[m - 1].orders), g)
    requires AllFull(fs)
    ensures |fs + g| <= |Flatten(levels)|
    ensures Flatten(levels[..m - 1] + [l']) == Leftover(Flatten(levels), fs + g)
  {
    var live, rest := Live(levels[m - 1].orders), Flatten(levels[..m - 1]);
    assert levels[..m][..m - 1] == levels[..m - 1];
    assert Flatten(levels[..m]) == live + rest;
    LeftoverSplit(Flatten(levels), fs, live, rest, g);
    assert (levels[..m - 1] + [l'])[..m - 1] == levels[..m - 1];
  }

  /** Once complete fills are off the front, matching goes on in the next stretch. */
  lemma {:induction false} LeftoverSplit(
      list: seq<LimitOrder>, fs: seq<Fill>, live: seq<LimitOrder>, rest: seq<LimitOrder>, g: seq<Fill>)
    requires |fs| <= |list| && list[|fs|..] == live + rest && |g| <= |live| && AllFull(fs)
    ensures |fs + g| <= |list| && Leftover(list, fs + g) == Leftover(live, g) + rest
  {
    assert |list| == |fs| + |live| + |rest|;
    StubConcat(fs, g);
    assert list[|fs + g|..] == list[|fs|..][|g|..] == live[|g|..] + rest;
    assert Stub(g) + (live[|g|..] + rest) == (Stub(g) + live[|g|..]) + rest;
  }

  lemma {:induction false} StubConcat(fs: seq<Fill>, g: seq<Fill>)
    requires AllFull(fs)
    ensures Stub(fs + g) == Stub(g) && ResidualOf(fs + g) == ResidualOf(g)
  {
    if g == [] {
      assert fs + g == fs;
      assert fs != [] ==> Full(fs[|fs| - 1]);
    } else {
      assert (fs + g)[|fs + g| - 1] == g[|g| - 1];
    }
  }

  lemma {:induction false} StopNothingNew(levels: seq<Level>, m: nat, l': Level, orders: seq<LimitOrder>, k: nat)
    requires 0 < m <= |levels| && SameEntries(orders, levels[m - 1].orders) && k <= |orders| && l'.orders == orders[k..]
    ensures NothingNew(levels, levels[..m - 1] + [l'])
  {
    var levels' := levels[..m - 1] + [l'];
    forall i, j | 0 <= i < |levels'| && 0 <= j < |levels'[i].orders|
      ensures exists j' :: 0 <= j' < |levels[i].orders|
                && EntryIs(levels[i].orders[j'], levels'[i].orders[j].id, Dead(levels'[i].orders[j]))
    {
      if i == m - 1 {
        assert SameEntry(orders[k + j], levels[i].orders[k + j]);
        assert EntryIs(levels[i].orders[k + j], levels'[i].orders[j].id, Dead(levels'[i].orders[j]));
      } else {
        assert EntryIs(levels[i].orders[j], levels'[i].orders[j].id, Dead(levels'[i].orders[j]));
      }
    }
  }

  /** The sweep stops inside the last of the first `m` levels. */
  lemma {:induction false} StopInside(
      side: Direction, levels: seq<Level>, m: nat, fs: seq<Fill>, filled: seq<LimitOrder>,
                                      size: nat, taker: Option<Account>, p: MarketPrecision, r: LevelSweep)
    requires BookOk(side, levels) && 0 < m && Between(side, levels, m, fs, filled)
    requires SweptLevel(levels[m - 1].orders, size, taker, p, r) && r.drained < |levels[m - 1].orders|
    ensures size <= levels[m - 1].volume && r.dead <= levels[m - 1].cancelled
    ensures Swept(side, levels, fs + Greedy(Live(levels[m - 1].orders), size, taker), p,
              Sweep(levels[..m - 1] + [Cut(levels[m - 1], size, r)], filled + r.orders[..r.drained], r.residual,
                    Sum(TallyOf(fs, p), r.tally))) == true
  {
    var l := levels[m - 1];
    var g := Greedy(Live(l.orders), size, taker);
    StopBook(side, levels, m, size, taker, p, r);
    assert Cut(l, size, r).orders == r.orders[r.drained..];
    StopTaken(side, levels, m, fs, g, Cut(l, size, r), r);
    StopReports(levels, m, fs, g, filled, p, r);
  }

  lemma {:induction false} StopTaken(
      side: Direction, levels: seq<Level>, m: nat, fs: seq<Fill>, g: seq<Fill>, l': Level, r: LevelSweep)
    requires BookOk(side, levels) && 0 < m <= |levels| && AllFull(fs)
    requires |fs| <= |Flatten(levels)| && Flatten(levels)[|fs|..] == Flatten(levels[..m])
    requires |g| <= |Live(levels[m - 1].orders)| && Live(l'.orders) == Leftover(Live(levels[m - 1].orders), g)
    requires SameEntries(r.orders, levels[m - 1].orders) && r.drained <= |r.orders|
      && l'.orders == r.orders[r.drained..]
    requires l'.price == levels[m - 1].price && BookOk(side, levels[..m - 1] + [l'])
    ensures TakenOff(side, levels, fs + g, levels[..m - 1] + [l'])
  {
    StopList(levels, m, fs, g, l');
    StopNothingNew(levels, m, l', r.orders, r.drained);
    assert Key(side, l'.price) <= Key(side, levels[|levels| - 1].price);
  }

  lemma {:induction false} StopReports(levels: seq<Level>, m: nat, fs: seq<Fill>, g: seq<Fill>, filled: seq<LimitOrder>,
                                       p: MarketPrecision, r: LevelSweep)
    requires 0 < m <= |levels| && AllFull(fs) && SameEntries(r.orders, levels[m - 1].orders)
    requires Live(filled) == DoneOrders(fs) && forall o :: o in filled && Dead(o) ==> HasDead(levels, o.id)
    requires r.drained <= |r.orders| && Live(r.orders[..r.drained]) == DoneOrders(g)
    requires r.residual == ResidualOf(g) && r.tally == TallyOf(g, p)
    ensures forall levels' :: Reports(levels, fs + g, p,
      Sweep(levels', filled + r.orders[..r.drained], r.residual, Sum(TallyOf(fs, p), r.tally)))
  {
    LiveAppend(filled, r.orders[..r.drained]);
    DoneAppend(fs, g);
    DrainedDead(levels, m - 1, r.orders, r.drained);
    TallySum(fs, g, p);
    StubConcat(fs, g);
  }

  lemma {:induction false} StopBook(side: Direction, levels: seq<Level>, m: nat,
                                    size: nat, taker: Option<Account>, p: MarketPrecision, r: LevelSweep)
    requires BookOk(side, levels) && 0 < m <= |levels|
    requires SweptLevel(levels[m - 1].orders, size, taker, p, r) && r.drained < |levels[m - 1].orders|
    ensures size <= levels[m - 1].volume && r.dead <= levels[m - 1].cancelled
    ensures BookOk(side, levels[..m - 1] + [Cut(levels[m - 1], size, r)]) == true
  {
    assert LevelOk(side, levels[m - 1]);
    CutOk(side, levels[m - 1], size, taker, p, r);
    BookOkPrefix(side, levels, m - 1);
    var l' := Cut(levels[m - 1], size, r);
    var levels' := levels[..m - 1] + [l'];
    assert LevelOk(side, l');
    forall i | 0 <= i < |levels'| ensures LevelOk(side, levels'[i]) {
      if i < m - 1 {
        assert LevelOk(side, levels[i]);
      }
    }
  }
}
