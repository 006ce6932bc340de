/** Every account's balances after every transaction, and over whole runs. */
module TxBalances {
  import opened Orders
  import opened BookEdits
  import opened Matching
  import opened SpotMarkets
  import opened Balances
  import opened Transfers
  import opened ClearingHouse
  import opened SelfTrades
  import opened Effects
  import opened AccountOrders
  import opened Ledger
  import opened LedgerRuns
  import opened LedgerSolvency
  import opened TxAnswers
  import opened TxCopies

  /** What a cancel hands back: the cost of the unfilled part of the order, at the lot sizes of the
      market that the transaction names. */
  ghost function Refund(s: LedgerState, tx: Tx, b: Account, x: Asset): int
    requires Cancels(s, tx) && tx.market < |s.house.markets|
  {
    var o := Copy(s.infos, tx.from, tx.orderId).value;
    var mk := s.house.markets[o.market];
    if Lists(Flatten(Side(mk, o.dir)), o) && b == o.account && x == Pays(mk, o.dir)
    then Cost(mk.(prec := s.house.markets[tx.market].prec), o.dir, o.base - o.filled, o.price) else 0
  }

  /** The change of the available balance of account `b` in asset `x`. */
  ghost function AvailableMove(s: LedgerState, tx: Tx, b: Account, x: Asset): int {
    if !Answered(s, tx) then 0
    else if Executes(s, tx) then AvailableChange(s.house.markets[tx.market], tx.dir, Due(s, tx), tx.from, b, x)
    else match tx
      case TransferTx(from, to, y, n, _) =>
        (if b == to && x == y then n else 0)
        - (if b == from && y < |Entries(s.house.accounts, from)| && IsEntry(Entries(s.house.accounts, from), y, x)
           then n else 0)
      case OrderTx(from, m, dir, LimitKind(price, size), _) =>
        var mk := s.house.markets[m];
        if !Short(s.house, NewLimit(s, tx)) && b == from && x == Pays(mk, dir) then 0 - Cost(mk, dir, size, price)
        else 0
      case OrderTx(_, _, _, MarketKind(_), _) => 0
      case CancelTx(_, _, _, _) => if Cancels(s, tx) then Refund(s, tx, b, x) else 0
  }

  /** The change of its total balance. */
  ghost function TotalMove(s: LedgerState, tx: Tx, b: Account, x: Asset): int {
    if !Answered(s, tx) then 0
    else if Executes(s, tx) then TotalChange(s.house.markets[tx.market], tx.dir, Due(s, tx), tx.from, b, x)
    else if tx.TransferTx? && b == tx.to && x == tx.asset then tx.amount
    else 0
  }

  /** The balances of account `b` in asset `x` change by exactly that. */
  ghost predicate Moves(s: LedgerState, tx: Tx, s': LedgerState, b: Account, x: Asset) {
    && Available(s'.house.accounts, b, x) == Available(s.house.accounts, b, x) + AvailableMove(s, tx, b, x)
    && Total(s'.house.accounts, b, x) == Total(s.house.accounts, b, x) + TotalMove(s, tx, b, x)
  }

  lemma {:induction false} ExecutedMoves(
      s: LedgerState, tx: Tx, s': LedgerState, b: Account, x: Asset, fills: seq<Fill>)
    requires Executes(s, tx) && fills == Due(s, tx)
    requires Available(s'.house.accounts, b, x) == Available(s.house.accounts, b, x)
      + AvailableChange(s.house.markets[tx.market], tx.dir, fills, tx.from, b, x)
    requires Total(s'.house.accounts, b, x) == Total(s.house.accounts, b, x)
      + TotalChange(s.house.markets[tx.market], tx.dir, fills, tx.from, b, x)
    ensures Moves(s, tx, s', b, x) == true
  {
  }

  lemma {:induction false} LimitMoves(
      s: LedgerState, tx: Tx, s': LedgerState, res: TxResult, out: Outcome, b: Account, x: Asset)
    requires LedgerOk(s) == true && PairedBooks(s.house) == true && LegalTx(s, tx) && tx.OrderTx? && tx.kind.LimitKind?
    requires LimitTxStep(s, tx, s', res, out) && res != None
    ensures Moves(s, tx, s', b, x) == true
  {
    LimitMeets(s, tx, s', res, out);
    if out.Executed? {
      LimitBalances(s.house, NewLimit(s, tx), s'.house, out.report, b, x);
      ExecutedMoves(s, tx, s', b, x, Due(s, tx));
    } else {
      LimitRests(s, tx, NewLimit(s, tx), s', out, b, x);
    }
  }

  lemma {:induction false} LimitRests(
      s: LedgerState, tx: Tx, o: LimitOrder, s': LedgerState, out: Outcome, b: Account, x: Asset)
    requires LedgerOk(s) && Answered(s, tx) && tx.OrderTx? && tx.kind.LimitKind? && o == NewLimit(s, tx)
    requires !Executes(s, tx) && !out.Executed? && LimitStep(s.house, o, s'.house, out) == true
    ensures Moves(s, tx, s', b, x) == true
  {
    assert MarketOk(s.house.markets[tx.market]);
    RestsAt(s.house, o, s'.house, out, b, x);
    RestMoves(s, tx, o, s', b, x);
  }

  lemma {:induction false} RestsAt(h: House, o: LimitOrder, h': House, out: Outcome, b: Account, x: Asset)
    requires o.filled == 0 && o.selfFilled == 0 && o.market < |h.markets| && MarketOk(h.markets[o.market]) == true
    requires LimitStep(h, o, h', out) == true && !out.Executed?
    ensures Total(h'.accounts, b, x) == Total(h.accounts, b, x)
    ensures Available(h'.accounts, b, x) == Available(h.accounts, b, x)
      - if !Short(h, o) && b == o.account && x == Pays(h.markets[o.market], o.dir)
        then Cost(h.markets[o.market], o.dir, o.base, o.price) else 0
  {
    LimitAnswer(h, o, h', out);
    RestingBalances(h, o, h', out, b, x);
  }

  lemma {:induction false} RestMoves(s: LedgerState, tx: Tx, o: LimitOrder, s': LedgerState, b: Account, x: Asset)
    requires Answered(s, tx) && tx.OrderTx? && tx.kind.LimitKind? && o == NewLimit(s, tx) && !Executes(s, tx)
    requires Total(s'.house.accounts, b, x) == Total(s.house.accounts, b, x)
    requires Available(s'.house.accounts, b, x) == Available(s.house.accounts, b, x)
      - if !Short(s.house, o) && b == o.account && x == Pays(s.house.markets[o.market], o.dir)
        then Cost(s.house.markets[o.market], o.dir, o.base, o.price) else 0
    ensures Moves(s, tx, s', b, x) == true
  {
  }

  lemma {:induction false} MarketMovesBalances(
      s: LedgerState, tx: Tx, s': LedgerState, res: TxResult, out: Outcome, b: Account, x: Asset)
    requires LedgerOk(s) == true && PairedBooks(s.house) == true && LegalTx(s, tx) && tx.OrderTx? && tx.kind.MarketKind?
    requires MarketTxStep(s, tx, s', res, out) && res != None
    ensures Moves(s, tx, s', b, x) == true
  {
    AnswerIff(s, tx, s', res, Traded(out));
    MarketOut(s, tx, s', res, out);
    if out.Executed? {
      MarketBalances(s.house, tx.market, tx.dir, tx.kind.size, tx.from, s'.house, out.report, b, x);
      ExecutedMoves(s, tx, s', b, x, Due(s, tx));
    } else {
      MarketRefused(s, tx, s', out, b, x);
    }
  }

  lemma {:induction false} MarketRefused(s: LedgerState, tx: Tx, s': LedgerState, out: Outcome, b: Account, x: Asset)
    requires Answered(s, tx) && tx.OrderTx? && tx.kind.MarketKind? && !Executes(s, tx) && !out.Executed?
    requires tx.dir == Buy ==> Priced(s.house.markets[tx.market].asks)
    requires MarketStep(s.house, tx.market, tx.dir, tx.kind.size, tx.from, s'.house, out) == true
    ensures Moves(s, tx, s', b, x) == true
  {
    MarketAnswer(s.house, tx.market, tx.dir, tx.kind.size, tx.from, s'.house, out);
    RefusedMarketBalances(s.house, tx.market, tx.dir, tx.kind.size, tx.from, s'.house, b, x);
  }

  lemma {:induction false} CancelMovesBalances(
      s: LedgerState, tx: Tx, s': LedgerState, res: TxResult, ok: bool, unfilled: nat, b: Account, x: Asset)
    requires LegalTx(s, tx) && tx.CancelTx? && CancelTxStep(s, tx, s', res, ok, unfilled) && res != None
    ensures Moves(s, tx, s', b, x) == true
  {
    AnswerIff(s, tx, s', res, Revoked(ok, unfilled));
    RefundMoves(s, tx, Named(s, tx), s', ok, unfilled, b, x);
  }

  lemma {:induction false} RefundMoves(
      s: LedgerState, tx: Tx, o: LimitOrder, s': LedgerState, ok: bool, unfilled: nat, b: Account, x: Asset)
    requires tx.CancelTx? && Answered(s, tx) == true && tx.market < |s.house.markets|
    requires HasOpen(s.infos, tx.from, tx.orderId) && o == Named(s, tx)
    requires CancelStep(s.house, o, s.house.markets[tx.market].prec, s'.house, ok, unfilled) == true
    ensures Moves(s, tx, s', b, x) == true
  {
    CancelBalances(s.house, o, s.house.markets[tx.market].prec, s'.house, ok, unfilled, b, x);
  }

  lemma {:induction false} TransferMoves(
      s: LedgerState, tx: Tx, s': LedgerState, res: TxResult, d: Detail, b: Account, x: Asset)
    requires LegalTx(s, tx) && tx.TransferTx? && TxStep(s, tx, s', res, d) && res != None
    ensures Moves(s, tx, s', b, x) == true
  {
    AnswerIff(s, tx, s', res, d);
    TransferBalances(s.house.accounts, tx.from, tx.to, tx.asset, tx.amount, b, x);
  }

  lemma {:induction false} AnsweredMoves(
      s: LedgerState, tx: Tx, s': LedgerState, res: TxResult, d: Detail, b: Account, x: Asset)
    requires LedgerOk(s) == true && PairedBooks(s.house) == true && LegalTx(s, tx) == true
    requires TxStep(s, tx, s', res, d) && res != None
    ensures Moves(s, tx, s', b, x) == true
  {
    match tx
    case TransferTx(_, _, _, _, _) => TransferMoves(s, tx, s', res, d, b, x);
    case OrderTx(_, _, _, LimitKind(_, _), _) => LimitMoves(s, tx, s', res, d.out, b, x);
    case OrderTx(_, _, _, MarketKind(_), _) => MarketMovesBalances(s, tx, s', res, d.out, b, x);
    case CancelTx(_, _, _, _) => CancelMovesBalances(s, tx, s', res, d.ok, d.unfilled, b, x);
  }

  lemma {:induction false} UnansweredMoves(s: LedgerState, tx: Tx, s': LedgerState, d: Detail, b: Account, x: Asset)
    requires TxStep(s, tx, s', None, d) == true
    ensures Moves(s, tx, s', b, x) == true
  {
    AnswerIff(s, tx, s', None, d);
    Unanswered(s, tx, s', d, b, x);
  }

  /** Every transaction moves exactly these amounts, known before it. */
  lemma {:induction false} TxMoves(
      s: LedgerState, tx: Tx, s': LedgerState, res: TxResult, d: Detail, b: Account, x: Asset)
    requires LedgerOk(s) == true && PairedBooks(s.house) == true && LegalTx(s, tx) == true
    requires TxStep(s, tx, s', res, d) == true
    ensures Moves(s, tx, s', b, x) == true
  {
    if res == None {
      UnansweredMoves(s, tx, s', d, b, x);
    } else {
      AnsweredMoves(s, tx, s', res, d, b, x);
    }
  }

  // ---------- runs ----------

  ghost function Sum(moves: seq<int>): int {
    if moves == [] then 0 else Sum(moves[..|moves| - 1]) + moves[|moves| - 1]
  }

  lemma {:induction false} SumAdds(levels: seq<int>, moves: seq<int>)
    requires |levels| == |moves| + 1 && forall i :: 0 <= i < |moves| ==> levels[i + 1] == levels[i] + moves[i]
    ensures levels[|moves|] == levels[0] + Sum(moves)
  {
    if moves != [] {
      var n := |moves| - 1;
      SumAdds(levels[..n + 1], moves[..n]);
      assert levels[n + 1] == levels[n] + moves[n];
    }
  }

  ghost function AvailableMoves(ss: seq<LedgerState>, txs: seq<Tx>, k: nat, b: Account, x: Asset): seq<int>
    requires k <= |txs| < |ss|
  {
    seq(k, i requires 0 <= i < k => AvailableMove(ss[i], txs[i], b, x))
  }

  ghost function TotalMoves(ss: seq<LedgerState>, txs: seq<Tx>, k: nat, b: Account, x: Asset): seq<int>
    requires k <= |txs| < |ss|
  {
    seq(k, i requires 0 <= i < k => TotalMove(ss[i], txs[i], b, x))
  }

  lemma {:induction false} RunStep(ss: seq<LedgerState>, txs: seq<Tx>, results: seq<TxResult>, ds: seq<Detail>, i: nat,
      b: Account, x: Asset)
    requires LedgerRun(ss, txs, results, ds) && i < |txs| && LegalRun(ss, txs) == true
    requires LedgerOk(ss[0]) == true && PairedBooks(ss[0].house) == true
    ensures Moves(ss[i], txs[i], ss[i + 1], b, x) == true
  {
    LedgerSupply(ss, txs, results, ds, i, x);
    assert LegalTx(ss[i], txs[i]);
    TxMoves(ss[i], txs[i], ss[i + 1], results[i], ds[i], b, x);
  }

  ghost function Availables(ss: seq<LedgerState>, k: nat, b: Account, x: Asset): seq<int>
    requires k < |ss|
  {
    seq(k + 1, i requires 0 <= i <= k => Available(ss[i].house.accounts, b, x))
  }

  ghost function Totals(ss: seq<LedgerState>, k: nat, b: Account, x: Asset): seq<int>
    requires k < |ss|
  {
    seq(k + 1, i requires 0 <= i <= k => Total(ss[i].house.accounts, b, x))
  }

  /** In every state of every legal run each balance is the first one plus all moves so far. */
  lemma {:induction false} RunBalances(
      ss: seq<LedgerState>, txs: seq<Tx>, results: seq<TxResult>, ds: seq<Detail>, k: nat, b: Account, x: Asset)
    requires LedgerRun(ss, txs, results, ds) == true && k <= |txs| < |ss|
    requires LedgerOk(ss[0]) == true && PairedBooks(ss[0].house) == true && LegalRun(ss, txs) == true
    ensures Available(ss[k].house.accounts, b, x)
      == Available(ss[0].house.accounts, b, x) + Sum(AvailableMoves(ss, txs, k, b, x))
    ensures Total(ss[k].house.accounts, b, x) == Total(ss[0].house.accounts, b, x) + Sum(TotalMoves(ss, txs, k, b, x))
  {
    forall i | 0 <= i < k
      ensures Availables(ss, k, b, x)[i + 1] == Availables(ss, k, b, x)[i] + AvailableMoves(ss, txs, k, b, x)[i]
    {
      RunStep(ss, txs, results, ds, i, b, x);
      assert Moves(ss[i], txs[i], ss[i + 1], b, x);
    }
    SumAdds(Availables(ss, k, b, x), AvailableMoves(ss, txs, k, b, x));
    RunTotals(ss, txs, results, ds, k, b, x);
  }

  lemma {:induction false} RunTotals(
      ss: seq<LedgerState>, txs: seq<Tx>, results: seq<TxResult>, ds: seq<Detail>, k: nat, b: Account, x: Asset)
    requires LedgerRun(ss, txs, results, ds) == true && k <= |txs| < |ss|
    requires LedgerOk(ss[0]) == true && PairedBooks(ss[0].house) == true && LegalRun(ss, txs) == true
    ensures Total(ss[k].house.accounts, b, x) == Total(ss[0].house.accounts, b, x) + Sum(TotalMoves(ss, txs, k, b, x))
  {
    forall i | 0 <= i < k
      ensures Totals(ss, k, b, x)[i + 1] == Totals(ss, k, b, x)[i] + TotalMoves(ss, txs, k, b, x)[i]
    {
      RunStep(ss, txs, results, ds, i, b, x);
      assert Moves(ss[i], txs[i], ss[i + 1], b, x);
    }
    SumAdds(Totals(ss, k, b, x), TotalMoves(ss, txs, k, b, x));
  }
}
