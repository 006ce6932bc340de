/** Settlement of a matched order as a sequence of balance deltas, and what it does to the
    supply of the two assets and to the cover of resting orders. */
module Settlement {
  import opened LotMath
  import opened Orders
  import opened Sweeps
  import opened SpotMarkets
  import opened Balances

  /** The asset an order of this direction pays with and locks. */
  function OutAsset(mk: Market, dir: Direction): Asset { if dir == Buy then mk.quote else mk.base }

  function InAsset(mk: Market, dir: Direction): Asset { if dir == Buy then mk.base else mk.quote }

  /** What `lots` base lots at `price` cost an order of this direction, in asset units. */
  function OutAmount(p: MarketPrecision, dir: Direction, lots: nat, price: nat): nat {
    if dir == Buy then Scale(BaseToQuote(lots, price, p), p.quoteLot) else Scale(lots, p.baseLot)
  }

  /** What they earn it. */
  function InAmount(p: MarketPrecision, dir: Direction, lots: nat, price: nat): nat {
    OutAmount(p, Opposite(dir), lots, price)
  }

  /** A maker pays out of its locked funds and receives spendable funds. */
  function MakerDeltas(mk: Market, dir: Direction, a: Account, lots: nat, price: nat): seq<Delta> {
    [Delta(a, OutAsset(mk, dir), 0, 0 - OutAmount(mk.prec, dir, lots, price)),
     Delta(a, InAsset(mk, dir), InAmount(mk.prec, dir, lots, price), InAmount(mk.prec, dir, lots, price))]
  }

  /** The size a completely matched order is settled for. */
  function SettledLots(o: LimitOrder): nat { o.base - o.filled }

  /** Completely matched makers in order; cancelled entries are skipped. */
  function DoneDeltas(mk: Market, dir: Direction, filled: seq<LimitOrder>): seq<Delta> {
    if filled == [] then []
    else if Dead(filled[0]) then DoneDeltas(mk, dir, filled[1..])
    else
      MakerDeltas(mk, dir, filled[0].account, SettledLots(filled[0]), filled[0].price)
      + DoneDeltas(mk, dir, filled[1..])
  }

  function ResidualDeltas(mk: Market, dir: Direction, residual: Option<Residual>): seq<Delta> {
    match residual
    case None => []
    case Some(r) => MakerDeltas(mk, dir, r.account, r.filled, r.price)
  }

  /** The taker gets its whole lock back and then pays for what was matched. */
  function TakerDeltas(mk: Market, dir: Direction, a: Account, lock: nat, tally: Tally): seq<Delta> {
    var out := if dir == Buy then Scale(tally.quote, mk.prec.quoteLot) else Scale(tally.lots, mk.prec.baseLot);
    var in_ := if dir == Buy then Scale(tally.lots, mk.prec.baseLot) else Scale(tally.quote, mk.prec.quoteLot);
    [Delta(a, OutAsset(mk, dir), lock - out, 0 - out), Delta(a, InAsset(mk, dir), in_, in_)]
  }

  /** Everything a matched order changes after its lock was taken. */
  function SettleDeltas(mk: Market, dir: Direction, a: Account, lock: nat, r: Report): seq<Delta> {
    TakerDeltas(mk, dir, a, lock, r.tally)
    + DoneDeltas(mk, Opposite(dir), r.filled) + ResidualDeltas(mk, Opposite(dir), r.residual)
  }

  // ---------- conservation ----------

  /** Base lots the settlement of the completely matched orders books beyond their fills. */
  function SelfPart(done: seq<LimitOrder>): nat {
    if done == [] then 0 else done[0].selfFilled + SelfPart(done[1..])
  }

  /** Base and quote lots the makers are settled for. */
  function MakerLots(done: seq<LimitOrder>): nat {
    if done == [] then 0 else SettledLots(done[0]) + MakerLots(done[1..])
  }

  function MakerQuote(done: seq<LimitOrder>, p: MarketPrecision): nat {
    if done == [] then 0 else BaseToQuote(SettledLots(done[0]), done[0].price, p) + MakerQuote(done[1..], p)
  }

  function ResidualLots(r: Option<Residual>): nat { if r == None then 0 else r.value.filled }

  function ResidualQuote(r: Option<Residual>, p: MarketPrecision): nat {
    if r == None then 0 else BaseToQuote(r.value.filled, r.value.price, p)
  }

  lemma {:induction false} DoneSkipsDead(mk: Market, dir: Direction, filled: seq<LimitOrder>)
    ensures DoneDeltas(mk, dir, filled) == DoneDeltas(mk, dir, Live(filled))
  {
    if filled != [] {
      DoneSkipsDead(mk, dir, filled[1..]);
      if !Dead(filled[0]) {
        assert Live(filled)[1..] == Live(filled[1..]);
      }
    }
  }

  function Signed(dir: Direction, n: int): int { if dir == Buy then n else -n }

  lemma {:induction false} MakerNet(mk: Market, dir: Direction, a: Account, lots: nat, price: nat)
    requires mk.base != mk.quote
    ensures Net(MakerDeltas(mk, dir, a, lots, price), mk.base) == Signed(dir, Scale(lots, mk.prec.baseLot))
    ensures Net(MakerDeltas(mk, dir, a, lots, price), mk.quote)
         == -Signed(dir, Scale(BaseToQuote(lots, price, mk.prec), mk.prec.quoteLot))
  {
    var ds := MakerDeltas(mk, dir, a, lots, price);
    NetPair(ds[0], ds[1], mk.base);
    NetPair(ds[0], ds[1], mk.quote);
  }

  lemma {:induction false} DoneNet(mk: Market, dir: Direction, done: seq<LimitOrder>)
    requires mk.base != mk.quote && forall o :: o in done ==> !Dead(o)
    ensures Net(DoneDeltas(mk, dir, done), mk.base) == Signed(dir, Scale(MakerLots(done), mk.prec.baseLot))
    ensures Net(DoneDeltas(mk, dir, done), mk.quote)
         == -Signed(dir, Scale(MakerQuote(done, mk.prec), mk.prec.quoteLot))
  {
    if done != [] {
      var o := done[0];
      assert o in done;
      DoneNet(mk, dir, done[1..]);
      MakerNet(mk, dir, o.account, SettledLots(o), o.price);
      NetAppend(MakerDeltas(mk, dir, o.account, SettledLots(o), o.price), DoneDeltas(mk, dir, done[1..]), mk.base);
      NetAppend(MakerDeltas(mk, dir, o.account, SettledLots(o), o.price), DoneDeltas(mk, dir, done[1..]), mk.quote);
      ScaleAdd(SettledLots(o), MakerLots(done[1..]), mk.prec.baseLot);
      ScaleAdd(BaseToQuote(SettledLots(o), o.price, mk.prec), MakerQuote(done[1..], mk.prec), mk.prec.quoteLot);
    }
  }

  /** Net supply change of a settlement: makers' lots against the taker's. */
  lemma {:induction false} SettleNet(
      mk: Market, dir: Direction, a: Account, lock: nat, r: Report, done: seq<LimitOrder>)
    requires mk.base != mk.quote && Live(r.filled) == done && forall o :: o in done ==> !Dead(o)
    ensures var p := mk.prec;
      && Net(SettleDeltas(mk, dir, a, lock, r), mk.base)
         == Signed(dir, Scale(r.tally.lots, p.baseLot) - Scale(MakerLots(done) + ResidualLots(r.residual), p.baseLot))
      && Net(SettleDeltas(mk, dir, a, lock, r), mk.quote)
         == Signed(dir, Scale(MakerQuote(done, p)
            + ResidualQuote(r.residual, p), p.quoteLot) - Scale(r.tally.quote, p.quoteLot))
  {
    ScaleAdd(MakerLots(done), ResidualLots(r.residual), mk.prec.baseLot);
    ScaleAdd(MakerQuote(done, mk.prec), ResidualQuote(r.residual, mk.prec), mk.prec.quoteLot);
    var opp := Opposite(dir);
    var t, d, e := TakerDeltas(mk, dir, a, lock, r.tally), DoneDeltas(mk, opp, r.filled),
        ResidualDeltas(mk, opp, r.residual);
    TakerNet(mk, dir, a, lock, r.tally);
    DoneSkipsDead(mk, opp, r.filled);
    DoneNet(mk, opp, done);
    ResidualNet(mk, opp, r.residual);
    NetThree(t, d, e, mk.base);
    NetThree(t, d, e, mk.quote);
  }

  lemma {:induction false} NetThree(t: seq<Delta>, d: seq<Delta>, e: seq<Delta>, x: Asset)
    ensures Net(t + d + e, x) == Net(t, x) + Net(d, x) + Net(e, x)
  {
    NetAppend(t + d, e, x);
    NetAppend(t, d, x);
  }

  lemma {:induction false} TakerNet(mk: Market, dir: Direction, a: Account, lock: nat, tally: Tally)
    requires mk.base != mk.quote
    ensures Net(TakerDeltas(mk, dir, a, lock, tally), mk.base) == Signed(dir, Scale(tally.lots, mk.prec.baseLot))
    ensures Net(TakerDeltas(mk, dir, a, lock, tally), mk.quote) == -Signed(dir, Scale(tally.quote, mk.prec.quoteLot))
  {
    var ds := TakerDeltas(mk, dir, a, lock, tally);
    NetPair(ds[0], ds[1], mk.base);
    NetPair(ds[0], ds[1], mk.quote);
  }

  lemma {:induction false} ResidualNet(mk: Market, dir: Direction, r: Option<Residual>)
    requires mk.base != mk.quote
    ensures Net(ResidualDeltas(mk, dir, r), mk.base) == Signed(dir, Scale(ResidualLots(r), mk.prec.baseLot))
    ensures Net(ResidualDeltas(mk, dir, r), mk.quote)
      == -Signed(dir, Scale(ResidualQuote(r, mk.prec), mk.prec.quoteLot))
  {
    if r != None {
      MakerNet(mk, dir, r.value.account, r.value.filled, r.value.price);
    }
  }

  /** Complete fills but for the last one. */
  ghost predicate FullButLast(fills: seq<Fill>) {
    forall i :: 0 <= i < |fills| - 1 ==> Full(fills[i])
  }

  /** The makers are settled for exactly the traded lots plus whatever the completely
      matched ones had matched with their owners. */
  lemma {:induction false} LotsSettled(fills: seq<Fill>)
    requires FullButLast(fills)
    ensures MakerLots(DoneOrders(fills)) + ResidualLots(ResidualOf(fills))
      == Lots(fills, false) + SelfPart(DoneOrders(fills))
  {
    if fills != [] {
      var f, rest := fills[0], fills[1..];
      assert FullButLast(rest);
      LotsSettled(rest);
      if Full(f) {
        assert rest != [] ==> fills[|fills| - 1] == rest[|rest| - 1];
        assert DoneOrders(fills)[1..] == DoneOrders(rest);
        assert ResidualOf(fills) == ResidualOf(rest);
      } else {
        assert rest == [];
      }
    }
  }

  /** Nothing in these fills is a self trade, now or earlier. */
  ghost predicate NoSelf(fills: seq<Fill>) {
    forall i :: 0 <= i < |fills| ==> !fills[i].own && fills[i].order.selfFilled == 0
  }

  /** Without self trades both sides round the same fills the same way. */
  lemma {:induction false} QuoteSettled(fills: seq<Fill>, p: MarketPrecision)
    requires FullButLast(fills) && SelfPart(DoneOrders(fills)) == 0
    ensures MakerQuote(DoneOrders(fills), p) + ResidualQuote(ResidualOf(fills), p) == Quote(fills, false, p)
  {
    if fills != [] {
      var f, rest := fills[0], fills[1..];
      assert FullButLast(rest);
      if Full(f) {
        assert DoneOrders(fills)[1..] == DoneOrders(rest);
        QuoteSettled(rest, p);
        assert rest != [] ==> fills[|fills| - 1] == rest[|rest| - 1];
        assert ResidualOf(fills) == ResidualOf(rest);
        NoLotsNoQuote(f.order.price, p);
      } else {
        assert rest == [];
        NoLotsNoQuote(f.order.price, p);
      }
    }
  }

  lemma {:induction false} NoLotsNoQuote(price: nat, p: MarketPrecision)
    ensures BaseToQuote(0, price, p) == 0
  {
  }

  lemma {:induction false} SelfPartZero(done: seq<LimitOrder>)
    ensures SelfPart(done) == 0 <==> forall i :: 0 <= i < |done| ==> done[i].selfFilled == 0
  {
    if done != [] {
      SelfPartZero(done[1..]);
      assert forall i :: 0 <= i < |done[1..]| ==> done[1..][i] == done[i + 1];
    }
  }

  /** Settlement changes the supply of the base asset by what the completely matched makers had
      matched with their owners: a sell mints it, a buy burns it. */
  lemma {:induction false} SettleMints(mk: Market, dir: Direction, a: Account, lock: nat, fills: seq<Fill>, r: Report)
    requires mk.base != mk.quote && FullButLast(fills)
    requires Live(r.filled) == DoneOrders(fills) && (forall o :: o in DoneOrders(fills) ==> !Dead(o))
    requires r.residual == ResidualOf(fills) && r.tally == TallyOf(fills, mk.prec)
    ensures Net(SettleDeltas(mk, dir, a, lock, r), mk.base)
         == -Signed(dir, Scale(SelfPart(DoneOrders(fills)), mk.prec.baseLot))
  {
    SettleNet(mk, dir, a, lock, r, DoneOrders(fills));
    LotsSettled(fills);
    ScaleAdd(Lots(fills, false), SelfPart(DoneOrders(fills)), mk.prec.baseLot);
  }

  /** Settlement conserves the supply of the base asset exactly when no completely matched
      maker carries lots matched with its owner; the quote asset is then conserved too,
      with all rounding. */
  lemma {:induction false} SettleConserves(
      mk: Market, dir: Direction, a: Account, lock: nat, fills: seq<Fill>, r: Report)
    requires mk.base != mk.quote && FullButLast(fills)
    requires Live(r.filled) == DoneOrders(fills) && (forall o :: o in DoneOrders(fills) ==> !Dead(o))
    requires r.residual == ResidualOf(fills) && r.tally == TallyOf(fills, mk.prec)
    ensures Net(SettleDeltas(mk, dir, a, lock, r), mk.base) == 0
       <==> forall i :: 0 <= i < |DoneOrders(fills)| ==> DoneOrders(fills)[i].selfFilled == 0
    ensures Net(SettleDeltas(mk, dir, a, lock, r), mk.base) == 0
      ==> forall x :: Net(SettleDeltas(mk, dir, a, lock, r), x) == 0
  {
    var done, p := DoneOrders(fills), mk.prec;
    SettleNet(mk, dir, a, lock, r, done);
    LotsSettled(fills);
    SelfPartZero(done);
    ScaleAdd(Lots(fills, false), SelfPart(done), p.baseLot);
    if SelfPart(done) > 0 {
      ScalePositive(SelfPart(done), p.baseLot);
    } else {
      QuoteSettled(fills, p);
      forall x ensures Net(SettleDeltas(mk, dir, a, lock, r), x) == 0 {
        if x != mk.base && x != mk.quote {
          OtherAssets(mk, dir, a, lock, r, x);
        }
      }
    }
  }

  lemma {:induction false} OtherAssets(mk: Market, dir: Direction, a: Account, lock: nat, r: Report, x: Asset)
    requires x != mk.base && x != mk.quote
    ensures Net(SettleDeltas(mk, dir, a, lock, r), x) == 0
  {
    var opp := Opposite(dir);
    var t, d, e := TakerDeltas(mk, dir, a, lock, r.tally), DoneDeltas(mk, opp, r.filled),
        ResidualDeltas(mk, opp, r.residual);
    NetPair(t[0], t[1], x);
    OthersDone(mk, opp, r.filled, x);
    if r.residual != None {
      NetPair(e[0], e[1], x);
    }
    NetAppend(t + d, e, x);
    NetAppend(t, d, x);
  }

  lemma {:induction false} OthersDone(mk: Market, dir: Direction, filled: seq<LimitOrder>, x: Asset)
    requires x != mk.base && x != mk.quote
    ensures Net(DoneDeltas(mk, dir, filled), x) == 0
  {
    if filled != [] {
      OthersDone(mk, dir, filled[1..], x);
      if !Dead(filled[0]) {
        var ds := MakerDeltas(mk, dir, filled[0].account, SettledLots(filled[0]), filled[0].price);
        NetPair(ds[0], ds[1], x);
        NetAppend(ds, DoneDeltas(mk, dir, filled[1..]), x);
      }
    }
  }

  // ---------- cover ----------

  /** What cancelling the order would hand back. */
  function PledgeOf(mk: Market, o: LimitOrder): Pledge {
    Pledge(o.account, OutAsset(mk, o.dir), OutAmount(mk.prec, o.dir, o.base - o.filled, o.price))
  }

  function Pledges(mk: Market, list: seq<LimitOrder>): seq<Pledge> {
    if list == [] then [] else [PledgeOf(mk, list[0])] + Pledges(mk, list[1..])
  }

  /** The makers' share of a settlement, fill by fill. */
  function FillDeltas(mk: Market, dir: Direction, fills: seq<Fill>): seq<Delta> {
    if fills == [] then []
    else
      MakerDeltas(mk, dir, fills[0].order.account, fills[0].lots, fills[0].order.price)
      + FillDeltas(mk, dir, fills[1..])
  }

  /** Without self trades the reported orders settle fill by fill. */
  lemma {:induction false} DoneAsFills(mk: Market, dir: Direction, fills: seq<Fill>)
    requires FullButLast(fills) && NoSelf(fills) && forall i :: 0 <= i < |fills| ==> !Dead(fills[i].order)
    ensures DoneDeltas(mk, dir, DoneOrders(fills)) + ResidualDeltas(mk, dir, ResidualOf(fills))
      == FillDeltas(mk, dir, fills)
  {
    if fills != [] {
      var f, rest := fills[0], fills[1..];
      assert FullButLast(rest) && NoSelf(rest);
      DoneAsFills(mk, dir, rest);
      var ds := MakerDeltas(mk, dir, f.order.account, f.lots, f.order.price);
      if Full(f) {
        assert rest != [] ==> fills[|fills| - 1] == rest[|rest| - 1];
        assert ResidualOf(fills) == ResidualOf(rest);
        assert DoneOrders(fills)[1..] == DoneOrders(rest) && DoneOrders(fills)[0] == f.order;
        AppendAssoc(ds, DoneDeltas(mk, dir, DoneOrders(rest)), ResidualDeltas(mk, dir, ResidualOf(rest)));
      } else {
        assert rest == [];
        assert DoneOrders(fills) == [];
        assert [] + ds == ds + [];
      }
    }
  }

  /** A partial fill costs no more than it frees. */
  lemma {:induction false} FillFrees(p: MarketPrecision, dir: Direction, lots: nat, whole: nat, price: nat)
    requires lots <= whole
    ensures OutAmount(p, dir, lots, price) + OutAmount(p, dir, whole - lots, price) <= OutAmount(p, dir, whole, price)
  {
    if dir == Buy {
      SplitFill(lots, whole - lots, price, p);
      ScaleAdd(BaseToQuote(lots, price, p), BaseToQuote(whole - lots, price, p), p.quoteLot);
      ScaleMono(BaseToQuote(lots, price, p)
          + BaseToQuote(whole - lots, price, p), BaseToQuote(whole, price, p), p.quoteLot, p.quoteLot);
    } else {
      ScaleAdd(lots, whole - lots, p.baseLot);
    }
  }

  /** Cover by a list of resting orders and some further pledges. */
  ghost predicate CoversBoth(accounts: Accounts, ps: seq<Pledge>, rest: seq<Pledge>) {
    forall a, x :: CoversBothAt(accounts, ps, rest, a, x)
  }

  ghost predicate CoversBothAt(accounts: Accounts, ps: seq<Pledge>, rest: seq<Pledge>, a: Account, x: Asset) {
    && Available(accounts, a, x) >= 0
    && Available(accounts, a, x) + Claim(ps, a, x) + Claim(rest, a, x) <= Total(accounts, a, x)
  }

  lemma {:induction false} CoversBothNonNegative(accounts: Accounts, ps: seq<Pledge>, rest: seq<Pledge>)
    requires CoversBoth(accounts, ps, rest) == true
    ensures NonNegative(accounts) == true
  {
    forall a, x ensures NonNegativeAt(accounts, a, x) {
      assert CoversBothAt(accounts, ps, rest, a, x);
    }
  }

  lemma {:induction false} ClaimHead(mk: Market, o: LimitOrder, tail: seq<LimitOrder>, a: Account, x: Asset)
    ensures Claim(Pledges(mk, [o] + tail), a, x)
         == Claim(Pledges(mk, tail), a, x)
            + if o.account == a && OutAsset(mk, o.dir) == x then PledgeOf(mk, o).amount else 0
  {
    assert ([o] + tail)[1..] == tail;
    var ps := Pledges(mk, [o] + tail);
    assert ps == [PledgeOf(mk, o)] + Pledges(mk, tail);
    assert ps[1..] == Pledges(mk, tail);
  }

  /** Settling one fill pays out of what its order had pledged. */
  lemma {:induction false} SettleOne(mk: Market, accounts: Accounts, f: Fill, tail: seq<LimitOrder>, rest: seq<Pledge>)
    requires mk.base != mk.quote && !f.own && f.order.selfFilled == 0
    requires CoversBoth(accounts, Pledges(mk, [f.order] + tail), rest) == true
    ensures var ds := MakerDeltas(mk, f.order.dir, f.order.account, f.lots, f.order.price);
      && Safe(accounts, ds) == true
      && CoversBoth(ApplyAll(accounts, ds), Pledges(mk, if Full(f) then tail else [Touched(f)] + tail), rest) == true
  {
    var o := f.order;
    var ds := MakerDeltas(mk, o.dir, o.account, f.lots, o.price);
    var mid := Apply(accounts, ds[0]);
    var end := Apply(mid, ds[1]);
    assert ds == [ds[0], ds[1]];
    ApplyPair(accounts, ds[0], ds[1]);
    FillFrees(mk.prec, o.dir, f.lots, o.base - o.filled, o.price);
    var list' := if Full(f) then tail else [Touched(f)] + tail;
    forall a, x
      ensures NonNegativeAt(mid, a, x) && CoversBothAt(end, Pledges(mk, list'), rest, a, x)
    {
      assert CoversBothAt(accounts, Pledges(mk, [o] + tail), rest, a, x);
      ApplyEffect(accounts, ds[0], a, x);
      ApplyEffect(mid, ds[1], a, x);
      ClaimHead(mk, o, tail, a, x);
      ClaimHead(mk, Touched(f), tail, a, x);
    }
    CoversBothNonNegative(accounts, Pledges(mk, [o] + tail), rest);
    CoversBothNonNegative(end, Pledges(mk, list'), rest);
  }

  /** Settling fills off the front of the price-time list keeps the leftover covered, and
      no subtraction on the way underflows. */
  lemma {:induction false} SettleFills(
      mk: Market, dir: Direction, accounts: Accounts, list: seq<LimitOrder>, fills: seq<Fill>, rest: seq<Pledge>)
    requires mk.base != mk.quote && Matches(list, fills) && NoSelf(fills)
    requires forall i :: 0 <= i < |fills| ==> fills[i].order.dir == dir
    requires CoversBoth(accounts, Pledges(mk, list), rest) == true
    ensures Safe(accounts, FillDeltas(mk, dir, fills)) == true
    ensures CoversBoth(ApplyAll(accounts, FillDeltas(mk, dir, fills)), Pledges(mk, Leftover(list, fills)), rest) == true
    decreases |fills|
  {
    if fills == [] {
      assert Leftover(list, fills) == list;
      CoversBothNonNegative(accounts, Pledges(mk, list), rest);
    } else {
      var f, tail := fills[0], list[1..];
      assert list == [f.order] + tail;
      SettleOne(mk, accounts, f, tail, rest);
      var ds := MakerDeltas(mk, dir, f.order.account, f.lots, f.order.price);
      MatchesTail(list, fills);
      if Full(f) {
        SettleFills(mk, dir, ApplyAll(accounts, ds), tail, fills[1..], rest);
        SafeAppend(accounts, ds, FillDeltas(mk, dir, fills[1..]));
        ApplyAppend(accounts, ds, FillDeltas(mk, dir, fills[1..]));
      } else {
        assert FillDeltas(mk, dir, fills[1..]) == [];
        assert ds + [] == ds;
      }
    }
  }

  lemma {:induction false} MatchesTail(list: seq<LimitOrder>, fills: seq<Fill>)
    requires Matches(list, fills) && fills != []
    ensures Full(fills[0]) ==>
      Matches(list[1..], fills[1..]) && Leftover(list, fills) == Leftover(list[1..], fills[1..])
    ensures !Full(fills[0]) ==> fills[1..] == [] && Leftover(list, fills) == [Touched(fills[0])] + list[1..]
  {
    var f, g := fills[0], fills[1..];
    assert list[|fills|..] == list[1..][|g|..];
    assert fills == [f] + g;
    if Full(f) {
      StubConcat([f], g);
    } else {
      assert |fills| == 1;
    }
  }
}
