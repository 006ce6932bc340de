/** The clearing house: funds are locked, orders matched, both sides settled. */
module ClearingHouse {
  import opened LotMath
  import opened Orders
  import opened BookEdits
  import opened Sweeps
  import opened Matching
  import opened SpotMarkets
  import opened Balances
  import opened Settlement

  datatype House = House(accounts: Accounts, markets: seq<Market>)

  datatype Outcome = Refused | Resting | Executed(report: Report)

  function ReportOf(out: Outcome): Option<Report> { if out.Executed? then Some(out.report) else None }

  /** Looking an account up creates an empty entry for it. */
  function Touch(accounts: Accounts, a: Account): Accounts { accounts[a := Entries(accounts, a)] }

  /** The funds a limit order locks on arrival. */
  function LockOf(mk: Market, o: LimitOrder): nat { OutAmount(mk.prec, o.dir, o.base, o.price) }

  function LimitDeltas(mk: Market, o: LimitOrder, r: Option<Report>): seq<Delta> {
    if r == None then [LockDelta(mk, o)]
    else [LockDelta(mk, o)] + SettleDeltas(mk, o.dir, o.account, LockOf(mk, o), r.value)
  }

  function LockDelta(mk: Market, o: LimitOrder): Delta {
    Delta(o.account, OutAsset(mk, o.dir), 0 - LockOf(mk, o), 0)
  }

  /** Funds locked for a market order: base for a sell, quote for a buy. */
  function NeedOf(mk: Market, dir: Direction, size: nat): nat {
    if dir == Buy then Scale(size, mk.prec.quoteLot) else Scale(size, mk.prec.baseLot)
  }

  function MarketDeltas(mk: Market, dir: Direction, size: nat, a: Account, r: Report): seq<Delta> {
    [NeedDelta(mk, dir, size, a)] + SettleDeltas(mk, dir, a, NeedOf(mk, dir, size), r)
  }

  function NeedDelta(mk: Market, dir: Direction, size: nat, a: Account): Delta {
    Delta(a, OutAsset(mk, dir), 0 - NeedOf(mk, dir, size), 0)
  }

  function CancelDelta(mk: Market, o: LimitOrder, unfilled: nat, p: MarketPrecision): Delta {
    Delta(o.account, OutAsset(mk, o.dir), OutAmount(p, o.dir, unfilled, o.price), 0)
  }

  /** A market buy meets only priced asks (an ask at price 0 divides by zero) and is funded
      (the program does not turn it away). */
  ghost predicate BuyDefined(accounts: Accounts, mk: Market, dir: Direction, size: nat, a: Account) {
    dir == Buy ==> Priced(mk.asks) && NeedOf(mk, dir, size) <= Available(accounts, a, OutAsset(mk, dir))
  }

  // ---------- steps ----------

  ghost predicate LimitStep(h: House, o: LimitOrder, h': House, out: Outcome)
    requires o.filled == 0 && o.selfFilled == 0
  {
    && |h'.markets| == |h.markets|
    && if o.market >= |h.markets| then out == Refused && h' == House(Touch(h.accounts, o.account), h.markets)
       else
         var mk, mk' := h.markets[o.market], h'.markets[o.market];
         if Available(h.accounts, o.account, OutAsset(mk, o.dir)) < LockOf(mk, o) then
           out == Refused && h' == House(Apply(h.accounts, Delta(o.account, OutAsset(mk, o.dir), 0, 0)), h.markets)
         else
           && out != Refused && h'.markets == h.markets[o.market := mk']
           && LimitNext(mk, o, mk', ReportOf(out))
           && h'.accounts == ApplyAll(h.accounts, LimitDeltas(mk, o, ReportOf(out)))
  }

  ghost predicate MarketStep(h: House, m: nat, dir: Direction, size: nat, a: Account, h': House, out: Outcome)
    requires m < |h.markets| && dir == Buy ==> Priced(h.markets[m].asks)
  {
    && |h'.markets| == |h.markets|
    && if m >= |h.markets| then out == Refused && h' == House(Touch(h.accounts, a), h.markets)
       else
         var mk, mk' := h.markets[m], h'.markets[m];
         if Available(h.accounts, a, OutAsset(mk, dir)) < NeedOf(mk, dir, size) then
           out == Refused && h' == House(Apply(h.accounts, Delta(a, OutAsset(mk, dir), 0, 0)), h.markets)
         else
           && out.Executed? && h'.markets == h.markets[m := mk']
           && MarketNext(mk, dir, MarketFills(mk, dir, size, a), mk', out.report)
           && h'.accounts == ApplyAll(h.accounts, MarketDeltas(mk, dir, size, a, out.report))
  }

  ghost predicate CancelStep(h: House, o: LimitOrder, p: MarketPrecision, h': House, ok: bool, unfilled: nat) {
    && |h'.markets| == |h.markets|
    && (ok <==> o.market < |h.markets|)
    && if !ok then h' == House(Touch(h.accounts, o.account), h.markets)
       else
         var mk, mk' := h.markets[o.market], h'.markets[o.market];
         && h'.markets == h.markets[o.market := mk']
         && CancelNext(mk, o, mk', unfilled)
         && h'.accounts == Apply(h.accounts, CancelDelta(mk, o, unfilled, p))
  }

  // ---------- invariants ----------

  /** No resting order has traded with its owner. */
  ghost predicate Clean(list: seq<LimitOrder>) {
    forall i :: 0 <= i < |list| ==> list[i].selfFilled == 0
  }

  ghost predicate CleanMarket(m: Market) {
    MarketOk(m) && m.base != m.quote && Clean(Flatten(m.bids)) && Clean(Flatten(m.asks))
  }

  ghost predicate CleanHouse(h: House) {
    forall k {:trigger CleanMarket(h.markets[k])} :: 0 <= k < |h.markets| ==> CleanMarket(h.markets[k])
  }

  function MarketPledges(m: Market): seq<Pledge> {
    Pledges(m, Flatten(m.bids)) + Pledges(m, Flatten(m.asks))
  }

  /** What all resting orders of all markets would hand back on cancel. */
  function HousePledges(markets: seq<Market>): seq<Pledge> {
    if markets == [] then [] else MarketPledges(markets[0]) + HousePledges(markets[1..])
  }

  /** Every account's locked funds cover its resting orders, in every asset. */
  ghost predicate Solvent(h: House) { Covers(h.accounts, HousePledges(h.markets)) }

  // ---------- claims of one market among the others ----------

  lemma {:induction false} HouseAppend(a: seq<Market>, b: seq<Market>)
    ensures HousePledges(a + b) == HousePledges(a) + HousePledges(b)
  {
    if a == [] {
      assert a + b == b;
    } else {
      assert (a + b)[1..] == a[1..] + b;
      HouseAppend(a[1..], b);
    }
  }

  /** Pledges outside market `k`. */
  function Others(markets: seq<Market>, k: nat): seq<Pledge>
    requires k < |markets|
  {
    HousePledges(markets[..k]) + HousePledges(markets[k + 1..])
  }

  lemma {:induction false} HouseClaim(markets: seq<Market>, k: nat, dir: Direction, a: Account, x: Asset)
    requires k < |markets|
    ensures Claim(HousePledges(markets), a, x)
         == Claim(Pledges(markets[k], Flatten(Side(markets[k], dir))), a, x)
            + Claim(Pledges(markets[k], Flatten(Side(markets[k], Opposite(dir)))), a, x)
            + Claim(Others(markets, k), a, x)
  {
    var l, m, r := markets[..k], markets[k], markets[k + 1..];
    assert markets == l + ([m] + r) && ([m] + r)[1..] == r;
    HouseAppend(l, [m] + r);
    ClaimAppend(HousePledges(l), MarketPledges(m) + HousePledges(r), a, x);
    ClaimAppend(MarketPledges(m), HousePledges(r), a, x);
    ClaimAppend(HousePledges(l), HousePledges(r), a, x);
    ClaimAppend(Pledges(m, Flatten(m.bids)), Pledges(m, Flatten(m.asks)), a, x);
  }

  /** Cover of the house is cover of one side of one market plus the rest. */
  lemma {:induction false} SplitCover(h: House, k: nat, dir: Direction)
    requires k < |h.markets|
    ensures var m := h.markets[k];
      Solvent(h) == CoversBoth(h.accounts, Pledges(m, Flatten(Side(m, dir))),
                               Pledges(m, Flatten(Side(m, Opposite(dir)))) + Others(h.markets, k))
  {
    var m := h.markets[k];
    var ps := Pledges(m, Flatten(Side(m, dir)));
    var rest := Pledges(m, Flatten(Side(m, Opposite(dir)))) + Others(h.markets, k);
    forall a, x ensures CoversAt(h.accounts, HousePledges(h.markets), a, x)
        == CoversBothAt(h.accounts, ps, rest, a, x) {
      HouseClaim(h.markets, k, dir, a, x);
      ClaimAppend(Pledges(m, Flatten(Side(m, Opposite(dir)))), Others(h.markets, k), a, x);
    }
  }

  lemma {:induction false} OthersSame(markets: seq<Market>, k: nat, m: Market)
    requires k < |markets|
    ensures Others(markets[k := m], k) == Others(markets, k)
  {
    assert markets[k := m][..k] == markets[..k] && markets[k := m][k + 1..] == markets[k + 1..];
  }

  lemma {:induction false} PledgesSame(m: Market, m': Market, list: seq<LimitOrder>)
    requires SameMarket(m, m')
    ensures Pledges(m', list) == Pledges(m, list)
  {
    if list != [] {
      PledgesSame(m, m', list[1..]);
    }
  }

  /** Queueing an order adds exactly its pledge. */
  lemma {:induction false} ClaimEnqueue(
      m: Market, side: Direction, list: seq<LimitOrder>, o: LimitOrder, a: Account, x: Asset)
    ensures Claim(Pledges(m, Enqueue(side, list, o)), a, x)
         == Claim(Pledges(m, list), a, x)
            + if o.account == a && OutAsset(m, o.dir) == x then PledgeOf(m, o).amount else 0
  {
    if list != [] && Key(side, o.price) <= Key(side, list[0].price) {
      ClaimEnqueue(m, side, list[1..], o, a, x);
      ClaimHead(m, list[0], Enqueue(side, list[1..], o), a, x);
      ClaimHead(m, list[0], list[1..], a, x);
      assert [list[0]] + list[1..] == list;
    } else {
      ClaimHead(m, o, list, a, x);
    }
  }

  /** Removing an order removes exactly its pledge. */
  lemma {:induction false} ClaimWithout(m: Market, list: seq<LimitOrder>, o: LimitOrder, k: nat, a: Account, x: Asset)
    requires k < |list| && SameSlot(list[k], o)
    requires forall i :: 0 <= i < |list| && i != k ==> !SameSlot(list[i], o)
    ensures Claim(Pledges(m, list), a, x)
         == Claim(Pledges(m, Without(list, o)), a, x)
            + if list[k].account == a && OutAsset(m, list[k].dir) == x then PledgeOf(m, list[k]).amount else 0
  {
    assert [list[0]] + list[1..] == list;
    ClaimHead(m, list[0], list[1..], a, x);
    if k == 0 {
      assert forall y :: y in list[1..] ==> !SameSlot(y, o);
      WithoutAbsent(list[1..], o);
      assert Without(list, o) == list[1..];
    } else {
      ClaimWithout(m, list[1..], o, k - 1, a, x);
      ClaimHead(m, list[0], Without(list[1..], o), a, x);
    }
  }

  // ---------- cover, step by step ----------

  /** After the lock: the taker's locked funds also cover the order that is on its way in. */
  lemma {:induction false} LockTaken(
      accounts: Accounts, ps: seq<Pledge>, rest: seq<Pledge>, a: Account, x: Asset, lock: nat)
    requires CoversBoth(accounts, ps, rest) == true && lock <= Available(accounts, a, x)
    ensures var next := Apply(accounts, Delta(a, x, 0 - lock, 0));
      && NonNegative(accounts) == true && NonNegative(next) == true
      && CoversBoth(next, ps, [Pledge(a, x, lock)] + rest) == true
  {
    var d := Delta(a, x, 0 - lock, 0);
    var next := Apply(accounts, d);
    forall b, y ensures CoversBothAt(next, ps, [Pledge(a, x, lock)] + rest, b, y) {
      assert CoversBothAt(accounts, ps, rest, b, y);
      ApplyEffect(accounts, d, b, y);
      assert ([Pledge(a, x, lock)] + rest)[1..] == rest;
    }
    CoversBothNonNegative(accounts, ps, rest);
    CoversBothNonNegative(next, ps, [Pledge(a, x, lock)] + rest);
  }

  /** Releasing the lock and paying no more than it leaves everything else covered. */
  lemma {:induction false} TakerSettled(
      mk: Market, dir: Direction, accounts: Accounts, ps: seq<Pledge>, rest: seq<Pledge>,
                                        a: Account, lock: nat, tally: Tally)
    requires CoversBoth(accounts, ps, [Pledge(a, OutAsset(mk, dir), lock)] + rest) == true
    requires 0 - TakerDeltas(mk, dir, a, lock, tally)[0].total <= lock
    ensures Safe(accounts, TakerDeltas(mk, dir, a, lock, tally)) == true
    ensures CoversBoth(ApplyAll(accounts, TakerDeltas(mk, dir, a, lock, tally)), ps, rest) == true
  {
    var ds := TakerDeltas(mk, dir, a, lock, tally);
    var mid := Apply(accounts, ds[0]);
    var end := Apply(mid, ds[1]);
    assert ds == [ds[0], ds[1]];
    ApplyPair(accounts, ds[0], ds[1]);
    var held := [Pledge(a, OutAsset(mk, dir), lock)] + rest;
    forall b, y ensures NonNegativeAt(mid, b, y) && CoversBothAt(end, ps, rest, b, y) {
      assert CoversBothAt(accounts, ps, held, b, y);
      ApplyEffect(accounts, ds[0], b, y);
      ApplyEffect(mid, ds[1], b, y);
      assert held[1..] == rest;
    }
    CoversBothNonNegative(accounts, ps, held);
    CoversBothNonNegative(end, ps, rest);
  }

  /** The whole settlement of a matched order: the taker pays at most its lock, the makers
      pay out of their pledges, nothing underflows, and the leftover book stays covered. */
  lemma {:induction false} SettledCover(
      mk: Market, dir: Direction, accounts: Accounts, list: seq<LimitOrder>, fills: seq<Fill>,
                                        r: Report, rest: seq<Pledge>, a: Account, lock: nat)
    requires mk.base != mk.quote && Matches(list, fills) && NoSelf(fills)
    requires forall i :: 0 <= i < |fills| ==> fills[i].order.dir == Opposite(dir) && !Dead(fills[i].order)
    requires Live(r.filled) == DoneOrders(fills) && r.residual == ResidualOf(fills)
    requires CoversBoth(accounts, Pledges(mk, list), rest) == true && lock <= Available(accounts, a, OutAsset(mk, dir))
    requires 0 - TakerDeltas(mk, dir, a, lock, r.tally)[0].total <= lock
    ensures var ds := [Delta(a, OutAsset(mk, dir), 0 - lock, 0)] + SettleDeltas(mk, dir, a, lock, r);
      && Safe(accounts, ds) == true
      && CoversBoth(ApplyAll(accounts, ds), Pledges(mk, Leftover(list, fills)), rest) == true
  {
    var d := Delta(a, OutAsset(mk, dir), 0 - lock, 0);
    var t := TakerDeltas(mk, dir, a, lock, r.tally);
    var g := FillDeltas(mk, Opposite(dir), fills);
    DoneSkipsDead(mk, Opposite(dir), r.filled);
    DoneAsFills(mk, Opposite(dir), fills);
    AppendAssoc(t, DoneDeltas(mk, Opposite(dir), r.filled), ResidualDeltas(mk, Opposite(dir), r.residual));
    assert SettleDeltas(mk, dir, a, lock, r) == t + g;
    LockTaken(accounts, Pledges(mk, list), rest, a, OutAsset(mk, dir), lock);
    ApplyOne(accounts, d);
    var locked := Apply(accounts, d);
    TakerSettled(mk, dir, locked, Pledges(mk, list), rest, a, lock, r.tally);
    var paid := ApplyAll(locked, t);
    SettleFills(mk, Opposite(dir), paid, list, fills, rest);
    SafeAppend(locked, t, g);
    ApplyAppend(locked, t, g);
    SafeAppend(accounts, [d], t + g);
    ApplyAppend(accounts, [d], t + g);
  }
}
