/** Which transactions are answered, and what the record of a market order says. */
module TxAnswers {
  import opened LotMath
  import opened Orders
  import opened Matching
  import opened SpotMarkets
  import opened Balances
  import opened ClearingHouse
  import opened HouseRuns
  import opened AccountOrders
  import opened Ledger
  import opened LedgerRuns
  import opened Effects
  import opened Records

  // ---------- answers ----------

  /** The order would trade with an open order of its own sender: a buy with a sell at or below
      its price, a sell with a buy at or above it. */
  ghost predicate ReachesOwn(open: seq<LimitOrder>, dir: Direction, price: nat) {
    if dir == Buy then exists i :: 0 <= i < |open| && open[i].dir == Sell && open[i].price <= price
    else exists i :: 0 <= i < |open| && open[i].dir == Buy && open[i].price >= price
  }

  lemma {:induction false} SelfCrossIff(open: seq<LimitOrder>, dir: Direction, price: nat)
    ensures IsSelfCross(open, dir, price) <==> ReachesOwn(open, dir, price)
  {
    if ReachesOwn(open, dir, price) {
      var i :| 0 <= i < |open| && open[i].dir != dir
        && if dir == Buy then open[i].price <= price else open[i].price >= price;
      assert open[i].dir == Opposite(dir) && Acceptable(Opposite(dir), price, open[i].price);
    }
  }

  ghost predicate HasOpenId(open: seq<LimitOrder>, id: nat) { exists i :: 0 <= i < |open| && open[i].id == id }

  ghost predicate HasAsset(entries: seq<TokenBalance>, x: Asset) {
    exists i :: 0 <= i < |entries| && entries[i].asset == x
  }

  /** The transaction carries the nonce its sender's account expects, and what it names is there:
      the sent amount, the market, the order; no own order is in the way of a limit order. */
  ghost predicate Answered(s: LedgerState, tx: Tx) {
    && tx.nonce == NonceOf(s.infos, tx.from)
    && match tx
       case TransferTx(from, _, x, n, _) =>
         HasAsset(Entries(s.house.accounts, from), x) && n <= Available(s.house.accounts, from, x)
       case OrderTx(from, m, dir, LimitKind(price, _), _) =>
         m < |s.house.markets| && !ReachesOwn(OpenOf(s.infos, from), dir, price)
       case OrderTx(_, m, _, MarketKind(_), _) => m < |s.house.markets|
       case CancelTx(from, m, id, _) => m < |s.house.markets| && HasOpenId(OpenOf(s.infos, from), id)
  }

  /** A limit or market order uses up an id once it is past the nonce and self-cross checks, even
      if its market does not exist. */
  ghost predicate Issues(s: LedgerState, tx: Tx) {
    && tx.OrderTx? && tx.nonce == NonceOf(s.infos, tx.from)
    && (tx.kind.LimitKind? ==> !ReachesOwn(OpenOf(s.infos, tx.from), tx.dir, tx.kind.price))
  }

  /** A transaction reports a result exactly under these conditions, and ids advance one by one. */
  lemma {:induction false} AnswerIff(s: LedgerState, tx: Tx, s': LedgerState, res: TxResult, d: Detail)
    requires TxStep(s, tx, s', res, d)
    ensures res == if Answered(s, tx) then Some((tx.from, tx.nonce + 1)) else None
    ensures s'.nextId == s.nextId + if Issues(s, tx) then 1 else 0
  {
    match tx
    case TransferTx(_, _, _, _, _) =>
    case OrderTx(from, _, dir, LimitKind(price, _), _) => SelfCrossIff(OpenOf(s.infos, from), dir, price);
    case OrderTx(_, _, _, MarketKind(_), _) =>
    case CancelTx(from, _, id, _) =>
      var open := OpenOf(s.infos, from);
      assert HasOpen(s.infos, from, id) ==> open[IndexOf(open, id)].id == id;
  }

  /** A transaction without a result changes no book, no balance and no completed order, and the
      only trace it can leave among open orders is a limit order for a missing market. */
  lemma {:induction false} Unanswered(
      s: LedgerState, tx: Tx, s': LedgerState, d: Detail, a: Account, x: Asset)
    requires TxStep(s, tx, s', None, d)
    ensures s'.house.markets == s.house.markets
    ensures Available(s'.house.accounts, a, x) == Available(s.house.accounts, a, x)
    ensures Total(s'.house.accounts, a, x) == Total(s.house.accounts, a, x)
    ensures DoneOf(s'.infos, a) == DoneOf(s.infos, a)
    ensures OpenOf(s'.infos, a) == OpenOf(s.infos, a)
      + if Issues(s, tx) && tx.kind.LimitKind? && a == tx.from then [NewLimit(s, tx)] else []
  {
    if tx.OrderTx? && tx.kind.LimitKind? {
      SelfCrossIff(OpenOf(s.infos, tx.from), tx.dir, tx.kind.price);
    }
  }

  // ---------- the record of a market order ----------

  /** The sender has the size of its market order in the asset it pays with. */
  predicate CanCover(s: LedgerState, tx: Tx)
    requires tx.OrderTx? && tx.kind.MarketKind? && tx.market < |s.house.markets|
  {
    var mk := s.house.markets[tx.market];
    tx.kind.size * (if tx.dir == Buy then mk.prec.quoteLot else mk.prec.baseLot)
      <= Available(s.house.accounts, tx.from, Pays(mk, tx.dir))
  }

  /** The transaction is a market order that will be executed. */
  ghost predicate WillExecute(s: LedgerState, tx: Tx) {
    && tx.OrderTx? && tx.kind.MarketKind? && tx.nonce == NonceOf(s.infos, tx.from)
    && tx.market < |s.house.markets| && CanCover(s, tx)
    && (tx.dir == Buy ==> Priced(s.house.markets[tx.market].asks))
  }

  /** What the order trades with others, or with its sender, in the unit of its size: quote lots
      for a buy, base lots for a sell. */
  ghost function TradedWith(s: LedgerState, tx: Tx, own: bool): nat
    requires WillExecute(s, tx)
  {
    var mk := s.house.markets[tx.market];
    var fills := MarketFills(mk, tx.dir, tx.kind.size, tx.from);
    if tx.dir == Buy then Quote(fills, own, mk.prec) else Lots(fills, own)
  }

  /** The record carries the order's new id, its direction and size, what it traded with others and
      with its sender, and is marked filled exactly if the former reaches the size. */
  ghost predicate Describes(s: LedgerState, tx: Tx, c: CompletedOrder)
    requires WillExecute(s, tx)
  {
    && c.CompletedMarket? && c.id == s.nextId && c.dir == tx.dir && c.size == tx.kind.size
    && c.filled == TradedWith(s, tx, false) && c.selfFilled == TradedWith(s, tx, true)
    && (c.status == Filled <==> c.filled >= c.size) && (c.status == PartiallyFilled <==> c.filled < c.size)
  }

  /** Completed orders only grow, by limit orders. */
  ghost predicate AddsLimits(done: seq<CompletedOrder>, done': seq<CompletedOrder>) {
    done <= done' && forall i :: |done| <= i < |done'| ==> done'[i].CompletedLimit?
  }

  lemma {:induction false} AddsTrans(a: seq<CompletedOrder>, b: seq<CompletedOrder>, c: seq<CompletedOrder>)
    requires AddsLimits(a, b) && AddsLimits(b, c)
    ensures AddsLimits(a, c) == true
  {
    forall i | |a| <= i < |c| ensures c[i].CompletedLimit? {
      assert i < |b| ==> c[i] == b[i];
    }
  }

  lemma {:induction false} FillAllAdds(infos: Infos, filled: seq<LimitOrder>, a: Account)
    ensures AddsLimits(DoneOf(infos, a), DoneOf(FillAll(infos, filled), a)) == true
    decreases |filled|
  {
    if filled != [] {
      var mid := FillOne(infos, filled[0]);
      assert AddsLimits(DoneOf(infos, a), DoneOf(mid, a));
      FillAllAdds(mid, filled[1..], a);
      AddsTrans(DoneOf(infos, a), DoneOf(mid, a), DoneOf(FillAll(infos, filled), a));
    }
  }

  lemma {:induction false} MakersAdd(infos: Infos, r: Report, a: Account)
    ensures AddsLimits(DoneOf(infos, a), DoneOf(MakerChanges(infos, r), a)) == true
  {
    FillAllAdds(infos, r.filled, a);
    assert DoneOf(MakerChanges(infos, r), a) == DoneOf(FillAll(infos, r.filled), a);
  }

  /** The market records a transaction adds: one for an executed market order, first of all. */
  ghost predicate MarketDoneStep(s: LedgerState, tx: Tx, s': LedgerState, a: Account) {
    var done, done' := DoneOf(s.infos, a), DoneOf(s'.infos, a);
    if WillExecute(s, tx) && a == tx.from
    then |done| < |done'| && Describes(s, tx, done'[|done|]) && AddsLimits(done + [done'[|done|]], done')
    else AddsLimits(done, done')
  }

  lemma {:induction false} MarketOut(s: LedgerState, tx: Tx, s': LedgerState, res: TxResult, out: Outcome)
    requires tx.OrderTx? && tx.kind.MarketKind? && LegalTx(s, tx) && MarketTxStep(s, tx, s', res, out)
    ensures WillExecute(s, tx) <==> res != None && out.Executed?
    ensures WillExecute(s, tx) ==>
      Describes(s, tx, MarketRecord(s.nextId, tx.dir, tx.kind.size, out.report.tally)) == true
  {
    if res != None {
      MarketAnswer(s.house, tx.market, tx.dir, tx.kind.size, tx.from, s'.house, out);
    }
  }

  lemma {:induction false} PushedFirst(infos: Infos, a: Account, c: CompletedOrder, r: Report, b: Account)
    ensures var done, done' := DoneOf(infos, b), DoneOf(MakerChanges(PushCompleted(infos, a, c), r), b);
      if a == b then |done| < |done'| && done'[|done|] == c && AddsLimits(done + [c], done') == true
      else AddsLimits(done, done') == true
  {
    MakersAdd(PushCompleted(infos, a, c), r, b);
  }

  lemma {:induction false} MarketTxMarkets(
      s: LedgerState, tx: Tx, s': LedgerState, res: TxResult, out: Outcome, a: Account)
    requires tx.OrderTx? && tx.kind.MarketKind? && LegalTx(s, tx) && MarketTxStep(s, tx, s', res, out)
    ensures MarketDoneStep(s, tx, s', a) == true
  {
    MarketOut(s, tx, s', res, out);
    if WillExecute(s, tx) {
      var infos, c := Ensure(s.infos, tx.from), MarketRecord(s.nextId, tx.dir, tx.kind.size, out.report.tally);
      assert DoneOf(infos, a) == DoneOf(s.infos, a);
      PushedFirst(infos, tx.from, c, out.report, a);
      assert DoneOf(s'.infos, a) == DoneOf(MakerChanges(PushCompleted(infos, tx.from, c), out.report), a);
    } else {
      assert DoneOf(s'.infos, a) == DoneOf(s.infos, a);
    }
  }

  lemma {:induction false} LimitAdds(issued: Infos, o: LimitOrder, out: Outcome, a: Account)
    ensures AddsLimits(DoneOf(issued, a), DoneOf(AfterLimit(issued, o, out), a)) == true
  {
    if out.Executed? && HasOpen(issued, o.account, o.id) {
      var mid := LimitChange(issued, o.account, o.id, out.report.tally.lots);
      assert AddsLimits(DoneOf(issued, a), DoneOf(mid, a));
      MakersAdd(mid, out.report, a);
      AddsTrans(DoneOf(issued, a), DoneOf(mid, a), DoneOf(MakerChanges(mid, out.report), a));
    }
  }

  lemma {:induction false} BumpDone(infos: Infos, b: Account, a: Account)
    ensures DoneOf(Bump(infos, b), a) == DoneOf(infos, a) == DoneOf(Ensure(infos, b), a)
  {
  }

  lemma {:induction false} LimitTxMarkets(
      s: LedgerState, tx: Tx, s': LedgerState, res: TxResult, out: Outcome, a: Account)
    requires tx.OrderTx? && tx.kind.LimitKind? && LimitTxStep(s, tx, s', res, out)
    ensures MarketDoneStep(s, tx, s', a) == true
  {
    var infos, o := Ensure(s.infos, tx.from), NewLimit(s, tx);
    LimitTxEnds(s, tx, s', res, out, infos, o);
    BumpDone(s.infos, tx.from, a);
    if res != None {
      LimitAdds(PushOpen(infos, o), o, out, a);
      BumpDone(AfterLimit(PushOpen(infos, o), o, out), tx.from, a);
    }
  }

  lemma {:induction false} TxMarkets(s: LedgerState, tx: Tx, s': LedgerState, res: TxResult, d: Detail, a: Account)
    requires LegalTx(s, tx) && TxStep(s, tx, s', res, d)
    ensures MarketDoneStep(s, tx, s', a) == true
  {
    match tx
    case TransferTx(_, _, _, _, _) =>
    case OrderTx(_, _, _, LimitKind(_, _), _) => LimitTxMarkets(s, tx, s', res, d.out, a);
    case OrderTx(_, _, _, MarketKind(_), _) => MarketTxMarkets(s, tx, s', res, d.out, a);
    case CancelTx(_, _, _, _) =>
  }

  lemma {:induction false} MarketWithinSize(mk: Market, dir: Direction, size: nat, a: Account)
    requires MarketOk(mk) && (dir == Buy ==> Priced(mk.asks))
    ensures var fills := MarketFills(mk, dir, size, a);
      (if dir == Buy then AllQuote(fills, mk.prec) else AllLots(fills)) <= size
  {
    if dir == Buy {
      BuyInBudget(mk.asks, size, a, mk.prec);
    } else {
      GreedyFillsMin(Flatten(mk.bids), size, Some(a));
    }
  }

  /** An executed market order is on record with what it traded; its size is never exceeded, and its
      filled amount is what the sender's balances move by, in lots. */
  lemma {:induction false} MarketRecordHolds(s: LedgerState, tx: Tx, s': LedgerState, res: TxResult, d: Detail)
    returns (c: CompletedOrder)
    requires LedgerOk(s) && LegalTx(s, tx) && TxStep(s, tx, s', res, d) && WillExecute(s, tx)
    ensures c in DoneOf(s'.infos, tx.from) && Describes(s, tx, c)
    ensures c.filled + c.selfFilled <= c.size
    ensures var mk := s.house.markets[tx.market];
      var fills := MarketFills(mk, tx.dir, tx.kind.size, tx.from);
      if tx.dir == Buy then TakerQuote(fills, mk.prec) == c.filled * mk.prec.quoteLot
      else TakerBase(fills, mk.prec) == c.filled * mk.prec.baseLot
  {
    var n := |DoneOf(s.infos, tx.from)|;
    TxMarkets(s, tx, s', res, d, tx.from);
    c := DoneOf(s'.infos, tx.from)[n];
    var mk := s.house.markets[tx.market];
    var fills := MarketFills(mk, tx.dir, tx.kind.size, tx.from);
    TakerUnits(fills, mk.prec);
    assert MarketOk(mk);
    MarketWithinSize(mk, tx.dir, tx.kind.size, tx.from);
    if tx.dir == Buy {
      ScaleIsProduct(c.filled, mk.prec.quoteLot);
    } else {
      ScaleIsProduct(c.filled, mk.prec.baseLot);
    }
  }

  // ---------- runs ----------

  /** Step `i` executed a market order of account `a`, whose record is `c`. */
  ghost predicate MarketAt(ss: seq<LedgerState>, txs: seq<Tx>, i: nat, a: Account, c: CompletedOrder)
    requires |ss| == |txs| + 1
  {
    i < |txs| && txs[i].from == a && WillExecute(ss[i], txs[i]) && Describes(ss[i], txs[i], c)
  }

  ghost predicate MarketDoneSteps(ss: seq<LedgerState>, txs: seq<Tx>, a: Account) {
    && |ss| == |txs| + 1
    && forall i {:trigger txs[i]} :: 0 <= i < |txs| ==> MarketDoneStep(ss[i], txs[i], ss[i + 1], a)
  }

  lemma {:induction false} RecordHasStep(ss: seq<LedgerState>, txs: seq<Tx>, k: nat, a: Account, j: nat)
    returns (i: nat)
    requires MarketDoneSteps(ss, txs, a) && k <= |txs| && DoneOf(ss[0].infos, a) == []
    requires j < |DoneOf(ss[k].infos, a)| && DoneOf(ss[k].infos, a)[j].CompletedMarket?
    ensures i < k && MarketAt(ss, txs, i, a, DoneOf(ss[k].infos, a)[j])
  {
    assert MarketDoneStep(ss[k - 1], txs[k - 1], ss[k], a);
    if j < |DoneOf(ss[k - 1].infos, a)| {
      i := RecordHasStep(ss, txs, k - 1, a, j);
    } else {
      i := k - 1;
    }
  }

  lemma {:induction false} StepHasRecord(
      ss: seq<LedgerState>, txs: seq<Tx>, k: nat, a: Account, i: nat, c: CompletedOrder)
    requires MarketDoneSteps(ss, txs, a) && i < k <= |txs| && MarketAt(ss, txs, i, a, c)
    ensures c in DoneOf(ss[k].infos, a)
    decreases k
  {
    var done, done' := DoneOf(ss[k - 1].infos, a), DoneOf(ss[k].infos, a);
    assert MarketDoneStep(ss[k - 1], txs[k - 1], ss[k], a);
    if i == k - 1 {
      assert done'[|done|] == c;
    } else {
      StepHasRecord(ss, txs, k - 1, a, i, c);
      var j :| 0 <= j < |done| && done[j] == c;
      assert done'[j] == c;
    }
  }

  /** In every state of every legal run from blank records, the market records of an account are
      exactly those of its executed market orders, each saying what its order traded. */
  lemma {:induction false} MarketRecordIff(ss: seq<LedgerState>, txs: seq<Tx>, results: seq<TxResult>, ds: seq<Detail>,
      k: nat, a: Account, c: CompletedOrder)
    requires LedgerRun(ss, txs, results, ds) == true && |ss| == |txs| + 1 && |ds| == |txs| && k <= |txs|
    requires forall i {:trigger txs[i]} :: 0 <= i < |txs| ==> LegalTx(ss[i], txs[i])
    requires Blank(ss[0].infos) && c.CompletedMarket?
    ensures c in DoneOf(ss[k].infos, a) <==> exists i: nat :: i < k && MarketAt(ss, txs, i, a, c)
  {
    forall i | 0 <= i < |txs| ensures MarketDoneStep(ss[i], txs[i], ss[i + 1], a) {
      assert LegalTx(ss[i], txs[i]) && TxStep(ss[i], txs[i], ss[i + 1], results[i], ds[i]);
      TxMarkets(ss[i], txs[i], ss[i + 1], results[i], ds[i], a);
    }
    assert MarketDoneSteps(ss, txs, a);
    var done := DoneOf(ss[k].infos, a);
    assert OpenOf(ss[0].infos, a) == [];
    if c in done {
      var j :| 0 <= j < |done| && done[j] == c;
      var i := RecordHasStep(ss, txs, k, a, j);
      assert MarketAt(ss, txs, i, a, c);
    }
    if exists i: nat :: i < k && MarketAt(ss, txs, i, a, c) {
      var i: nat :| i < k && MarketAt(ss, txs, i, a, c);
      StepHasRecord(ss, txs, k, a, i, c);
    }
  }
}
