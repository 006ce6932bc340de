/** The three layers together: what order and cancel transactions do to the clearing house. */
module LedgerSolvency {
  import opened Orders
  import opened SpotMarkets
  import opened Balances
  import opened Transfers
  import opened ClearingHouse
  import opened Solvency
  import opened HouseRuns
  import opened SelfTrades
  import opened AccountOrders
  import opened Ledger
  import opened LedgerSteps
  import opened LedgerRuns

  /** The clearing house operation of a transaction that reaches it. */
  ghost function OpOf(s: LedgerState, tx: Tx): Op
    requires Reaches(s, tx)
  {
    match tx
    case OrderTx(_, _, _, LimitKind(_, _), _) => PlaceLimit(NewLimit(s, tx))
    case OrderTx(from, m, dir, MarketKind(size), _) => PlaceMarket(m, dir, size, from)
    case CancelTx(_, m, _, _) => CancelOp(Named(s, tx), s.house.markets[m].prec)
  }

  ghost function ResultOf(d: Detail): Result {
    match d
    case Traded(out) => Placed(out)
    case Revoked(ok, unfilled) => CancelResult(ok, unfilled)
    case NoDetail => Placed(Refused)
  }

  /** A legal transaction that, if it is a funded market order, meets no order of its sender. */
  ghost predicate FairTx(s: LedgerState, tx: Tx) {
    && LegalTx(s, tx)
    && (Reaches(s, tx) && tx.OrderTx? && tx.kind.MarketKind? &&
        CanPay(s.house, tx.market, tx.dir, tx.kind.size, tx.from) ==>
          NoSelfTrade(s.house.markets[tx.market], tx.dir, tx.kind.size, tx.from))
  }

  /** A transaction that reaches the clearing house is one legal step of it: the ledger issues
      fresh ids and hands cancels the current copy of the order. Others leave it alone. */
  lemma {:induction false} TxIsHouseStep(s: LedgerState, tx: Tx, s': LedgerState, res: TxResult, d: Detail)
    requires LedgerOk(s) == true && CleanHouse(s.house) == true && FairTx(s, tx) && TxStep(s, tx, s', res, d)
    ensures !Reaches(s, tx) && !tx.TransferTx? ==> s'.house == s.house && res == None
    ensures Reaches(s, tx) ==>
      res != None && Legal(s.house, OpOf(s, tx)) && Step(s.house, OpOf(s, tx), s'.house, ResultOf(d)) == true
  {
    if Reaches(s, tx) {
      if tx.CancelTx? {
        CancelIsLegal(s, tx);
      } else if tx.kind.LimitKind? {
        IssuedIsNew(s, tx);
      }
    }
  }

  lemma {:induction false} CancelIsLegal(s: LedgerState, tx: Tx)
    requires LedgerOk(s) == true && CleanHouse(s.house) == true && tx.CancelTx? && HasOpen(s.infos, tx.from, tx.orderId)
    ensures var o := Named(s, tx);
      o.market < |s.house.markets| ==> FullCopy(Flatten(Side(s.house.markets[o.market], o.dir)), o) == true
  {
    var o := Named(s, tx);
    if o.market < |s.house.markets| {
      CancelCopyIsCurrent(s, tx);
      var list := Flatten(Side(s.house.markets[o.market], o.dir));
      assert CleanMarket(s.house.markets[o.market]);
      forall x | x in list && SameSlot(x, o) ensures SameOrder(x, o) {
        var j :| 0 <= j < |list| && list[j] == x;
        assert x.selfFilled == 0;
      }
    }
  }

  /** The account's slack bears the transaction. */
  ghost predicate TxEnough(s: LedgerState, tx: Tx) { Reaches(s, tx) ==> Enough(s.house, OpOf(s, tx)) }

  /** The amount that a transaction adds to the supply of an asset. */
  ghost function Minted(s: LedgerState, tx: Tx, x: Asset): nat {
    if Sends(s, tx) && tx.asset == x then tx.amount else 0
  }

  /** A transfer leaves the markets alone, keeps all cover and adds its amount to the supply. */
  lemma {:induction false} TransferEffect(s: LedgerState, tx: Tx, s': LedgerState, res: TxResult, x: Asset)
    requires tx.TransferTx? && LegalTx(s, tx) && TransferStep(s, tx, s', res)
    ensures s'.house.markets == s.house.markets
    ensures Supply(s'.house.accounts, x) == Supply(s.house.accounts, x) + Minted(s, tx, x)
    ensures Solvent(s.house) ==> Solvent(s'.house) == true
  {
    var accounts, ps := s.house.accounts, HousePledges(s.house.markets);
    if Sends(s, tx) {
      TransferMints(accounts, tx.from, tx.to, tx.asset, tx.amount, x);
      if Solvent(s.house) {
        TransferCovers(accounts, tx.from, tx.to, tx.asset, tx.amount, ps);
      }
    } else {
      SupplyTouch(accounts, tx.from, x);
      if Solvent(s.house) {
        TouchKeeps(s.house, tx.from, ps);
      }
    }
  }

  lemma {:induction false} TxKeepsClean(s: LedgerState, tx: Tx, s': LedgerState, res: TxResult, d: Detail, x: Asset)
    requires LedgerOk(s) == true && CleanHouse(s.house) == true && FairTx(s, tx) && TxStep(s, tx, s', res, d)
    ensures CleanHouse(s'.house) == true
    ensures Supply(s'.house.accounts, x) == Supply(s.house.accounts, x) + Minted(s, tx, x)
  {
    TxIsHouseStep(s, tx, s', res, d);
    if tx.TransferTx? {
      TransferEffect(s, tx, s', res, x);
    }
    if Reaches(s, tx) {
      StepKeepsClean(s.house, OpOf(s, tx), s'.house, ResultOf(d));
      StepConserves(s.house, OpOf(s, tx), s'.house, ResultOf(d), x);
    }
  }

  /** A transaction underflows no balance, and keeps the house solvent exactly if the
      account's slack bears it. */
  lemma {:induction false} TxSolventIff(s: LedgerState, tx: Tx, s': LedgerState, res: TxResult, d: Detail)
    requires LedgerOk(s) == true && CleanHouse(s.house) == true && Solvent(s.house) == true
    requires FairTx(s, tx) == true && TxStep(s, tx, s', res, d) == true
    ensures Solvent(s'.house) == TxEnough(s, tx)
    ensures Reaches(s, tx) ==> Safe(s.house.accounts, StepDeltas(s.house, OpOf(s, tx), ResultOf(d))) == true
  {
    TxIsHouseStep(s, tx, s', res, d);
    if tx.TransferTx? {
      TransferEffect(s, tx, s', res, 0);
    }
    if Reaches(s, tx) {
      StepSolventIff(s.house, OpOf(s, tx), s'.house, ResultOf(d));
    }
  }

  // ---------- runs ----------

  ghost predicate FairRun(ss: seq<LedgerState>, txs: seq<Tx>)
    requires |ss| > |txs|
  {
    forall i {:trigger txs[i]} :: 0 <= i < |txs| ==> FairTx(ss[i], txs[i])
  }

  /** Everything the transfers of a run add to the supply of an asset. */
  ghost function AllMinted(ss: seq<LedgerState>, txs: seq<Tx>, k: nat, x: Asset): nat
    requires k <= |txs| < |ss|
  {
    if k == 0 then 0 else AllMinted(ss, txs, k - 1, x) + Minted(ss[k - 1], txs[k - 1], x)
  }

  /** Over every run of fair transactions, whatever is rejected or replayed, the copies agree
      with the books, the books are in order and uncrossed, and no supply changes but by the
      amounts of the executed transfers. */
  lemma {:induction false} LedgerConserves(
      ss: seq<LedgerState>, txs: seq<Tx>, results: seq<TxResult>, ds: seq<Detail>, k: nat, x: Asset)
    requires LedgerRun(ss, txs, results, ds) && FairRun(ss, txs) && LedgerOk(ss[0]) && CleanHouse(ss[0].house)
      && k <= |txs|
    ensures LedgerOk(ss[k]) == true && CleanHouse(ss[k].house) == true
    ensures Supply(ss[k].house.accounts, x) == Supply(ss[0].house.accounts, x) + AllMinted(ss, txs, k, x)
  {
    if k > 0 {
      LedgerConserves(ss, txs, results, ds, k - 1, x);
      assert FairTx(ss[k - 1], txs[k - 1]);
      TxKeepsOk(ss[k - 1], txs[k - 1], ss[k], results[k - 1], ds[k - 1]);
      TxKeepsClean(ss[k - 1], txs[k - 1], ss[k], results[k - 1], ds[k - 1], x);
    }
  }

  ghost predicate LedgerSolventUpTo(ss: seq<LedgerState>, n: nat)
    requires n <= |ss|
  {
    forall k {:trigger ss[k]} :: 0 <= k < n ==> Solvent(ss[k].house)
  }

  ghost predicate LedgerEnough(ss: seq<LedgerState>, txs: seq<Tx>, n: nat)
    requires n <= |txs| < |ss|
  {
    forall i {:trigger txs[i]} :: 0 <= i < n ==> TxEnough(ss[i], txs[i])
  }

  /** The clearing house is solvent in every state of a run exactly if at every limit order
      that fills in part and at every refund the account's slack suffices. */
  lemma {:induction false} LedgerSolventIff(
      ss: seq<LedgerState>, txs: seq<Tx>, results: seq<TxResult>, ds: seq<Detail>, n: nat)
    requires LedgerRun(ss, txs, results, ds) && FairRun(ss, txs) && n <= |txs|
    requires LedgerOk(ss[0]) && CleanHouse(ss[0].house) && Solvent(ss[0].house)
    ensures LedgerSolventUpTo(ss, n + 1) <==> LedgerEnough(ss, txs, n)
  {
    if n > 0 {
      LedgerSolventIff(ss, txs, results, ds, n - 1);
      if LedgerSolventUpTo(ss, n) {
        LastSolventIff(ss, txs, results, ds, n);
      }
      SolventSplit(ss, n);
      EnoughSplit(ss, txs, n);
    }
  }

  /** All there is to know before the last of `n` transactions. */
  ghost predicate Ready(s: LedgerState, tx: Tx, s': LedgerState, res: TxResult, d: Detail) {
    LedgerOk(s) && CleanHouse(s.house) && Solvent(s.house) && FairTx(s, tx) && TxStep(s, tx, s', res, d)
  }

  lemma {:induction false} LastSolventIff(
      ss: seq<LedgerState>, txs: seq<Tx>, results: seq<TxResult>, ds: seq<Detail>, n: nat)
    requires 0 < n <= |txs| && |ss| == |txs| + 1 && |results| == |ds| == |txs|
      && LedgerRun(ss, txs, results, ds) == true
    requires FairRun(ss, txs) == true && LedgerOk(ss[0]) == true && CleanHouse(ss[0].house) == true
    requires LedgerSolventUpTo(ss, n) == true
    ensures Solvent(ss[n].house) == TxEnough(ss[n - 1], txs[n - 1])
  {
    LastReady(ss, txs, results, ds, n);
    ReadySolventIff(ss[n - 1], txs[n - 1], ss[n], results[n - 1], ds[n - 1]);
  }

  lemma {:induction false} ReadySolventIff(s: LedgerState, tx: Tx, s': LedgerState, res: TxResult, d: Detail)
    requires Ready(s, tx, s', res, d)
    ensures Solvent(s'.house) == TxEnough(s, tx)
  {
    TxSolventIff(s, tx, s', res, d);
  }

  lemma {:induction false} LastReady(
      ss: seq<LedgerState>, txs: seq<Tx>, results: seq<TxResult>, ds: seq<Detail>, n: nat)
    requires 0 < n <= |txs| && |ss| == |txs| + 1 && |results| == |ds| == |txs|
      && LedgerRun(ss, txs, results, ds) == true
    requires FairRun(ss, txs) == true && LedgerOk(ss[0]) == true && CleanHouse(ss[0].house) == true
    requires LedgerSolventUpTo(ss, n) == true
    ensures Ready(ss[n - 1], txs[n - 1], ss[n], results[n - 1], ds[n - 1]) == true
  {
    LedgerStaysClean(ss, txs, results, ds, n - 1);
    LastStep(ss, txs, results, ds, n);
    ReadyIs(ss[n - 1], txs[n - 1], ss[n], results[n - 1], ds[n - 1]);
  }

  lemma {:induction false} LedgerStaysClean(
      ss: seq<LedgerState>, txs: seq<Tx>, results: seq<TxResult>, ds: seq<Detail>, k: nat)
    requires |ss| == |txs| + 1 && LedgerRun(ss, txs, results, ds) == true && FairRun(ss, txs) == true && k <= |txs|
    requires LedgerOk(ss[0]) == true && CleanHouse(ss[0].house) == true
    ensures LedgerOk(ss[k]) == true && CleanHouse(ss[k].house) == true
  {
    LedgerConserves(ss, txs, results, ds, k, 0);
  }

  lemma {:induction false} ReadyIs(s: LedgerState, tx: Tx, s': LedgerState, res: TxResult, d: Detail)
    requires LedgerOk(s) == true && CleanHouse(s.house) == true && Solvent(s.house) == true
    requires FairTx(s, tx) == true && TxStep(s, tx, s', res, d) == true
    ensures Ready(s, tx, s', res, d) == true
  {
  }

  lemma {:induction false} LastStep(
      ss: seq<LedgerState>, txs: seq<Tx>, results: seq<TxResult>, ds: seq<Detail>, n: nat)
    requires LedgerRun(ss, txs, results, ds) && FairRun(ss, txs) && 0 < n <= |txs| < |ss| && LedgerSolventUpTo(ss, n)
    ensures Solvent(ss[n - 1].house) == true && FairTx(ss[n - 1], txs[n - 1]) == true
    ensures TxStep(ss[n - 1], txs[n - 1], ss[n], results[n - 1], ds[n - 1]) == true
  {
    assert FairTx(ss[n - 1], txs[n - 1]) && Solvent(ss[n - 1].house);
  }

  lemma {:induction false} SolventSplit(ss: seq<LedgerState>, n: nat)
    requires n < |ss|
    ensures LedgerSolventUpTo(ss, n + 1) == (LedgerSolventUpTo(ss, n) && Solvent(ss[n].house))
  {
  }

  lemma {:induction false} EnoughSplit(ss: seq<LedgerState>, txs: seq<Tx>, n: nat)
    requires 0 < n <= |txs| < |ss|
    ensures LedgerEnough(ss, txs, n) == (LedgerEnough(ss, txs, n - 1) && TxEnough(ss[n - 1], txs[n - 1]))
  {
  }

  // ---------- supply, self trades included ----------

  /** The ledger's checks make every legal transaction that reaches the clearing house allowed. */
  lemma {:induction false} LegalIsAllowed(s: LedgerState, tx: Tx)
    requires LedgerOk(s) == true && LegalTx(s, tx) && Reaches(s, tx)
    ensures Allowed(s.house, OpOf(s, tx)) == true
  {
    if tx.CancelTx? {
      if Named(s, tx).market < |s.house.markets| {
        CancelCopyIsCurrent(s, tx);
      }
    } else if tx.kind.LimitKind? {
      IssuedIsNew(s, tx);
    }
  }

  lemma {:induction false} LegalIsStep(s: LedgerState, tx: Tx, s': LedgerState, res: TxResult, d: Detail)
    requires LegalTx(s, tx) && TxStep(s, tx, s', res, d) && (Reaches(s, tx) ==> Allowed(s.house, OpOf(s, tx)) == true)
    ensures !Reaches(s, tx) && !tx.TransferTx? ==> s'.house == s.house
    ensures Reaches(s, tx) ==> Step(s.house, OpOf(s, tx), s'.house, ResultOf(d)) == true
  {
  }

  /** What a transaction adds to the supply of an asset: the amount of a transfer, and what
      completed makers that traded with their owners are settled for beyond their fills. */
  ghost function TxChange(s: LedgerState, tx: Tx, x: Asset): int
    requires LegalTx(s, tx)
  {
    Minted(s, tx, x) + if Reaches(s, tx) then StepChange(s.house, OpOf(s, tx), x) else 0
  }

  lemma {:induction false} TxSupply(s: LedgerState, tx: Tx, s': LedgerState, res: TxResult, d: Detail, x: Asset)
    requires LedgerOk(s) == true && PairedBooks(s.house) == true && LegalTx(s, tx) && TxStep(s, tx, s', res, d)
    ensures PairedBooks(s'.house) == true
    ensures Supply(s'.house.accounts, x) == Supply(s.house.accounts, x) + TxChange(s, tx, x)
  {
    if Reaches(s, tx) {
      LegalIsAllowed(s, tx);
      LegalIsStep(s, tx, s', res, d);
      StepSupply(s.house, OpOf(s, tx), s'.house, ResultOf(d), x);
    } else if tx.TransferTx? {
      TransferEffect(s, tx, s', res, x);
    } else {
      LegalIsStep(s, tx, s', res, d);
    }
  }

  ghost predicate LegalRun(ss: seq<LedgerState>, txs: seq<Tx>)
    requires |ss| > |txs|
  {
    forall i {:trigger txs[i]} :: 0 <= i < |txs| ==> LegalTx(ss[i], txs[i])
  }

  ghost function LedgerChange(ss: seq<LedgerState>, txs: seq<Tx>, k: nat, x: Asset): int
    requires k <= |txs| < |ss| && LegalRun(ss, txs)
  {
    if k == 0 then 0
    else
      assert LegalTx(ss[k - 1], txs[k - 1]);
      LedgerChange(ss, txs, k - 1, x) + TxChange(ss[k - 1], txs[k - 1], x)
  }

  /** The exact law of supply over every run of legal transactions: self trades, transfers,
      rejected and replayed transactions included. */
  lemma {:induction false} LedgerSupply(
      ss: seq<LedgerState>, txs: seq<Tx>, results: seq<TxResult>, ds: seq<Detail>, k: nat, x: Asset)
    requires LedgerRun(ss, txs, results, ds) && LegalRun(ss, txs) && k <= |txs|
    requires LedgerOk(ss[0]) == true && PairedBooks(ss[0].house) == true
    ensures LedgerOk(ss[k]) == true && PairedBooks(ss[k].house) == true
    ensures Supply(ss[k].house.accounts, x) == Supply(ss[0].house.accounts, x) + LedgerChange(ss, txs, k, x)
  {
    if k > 0 {
      LedgerSupply(ss, txs, results, ds, k - 1, x);
      assert LegalTx(ss[k - 1], txs[k - 1]);
      TxKeepsOk(ss[k - 1], txs[k - 1], ss[k], results[k - 1], ds[k - 1]);
      TxSupply(ss[k - 1], txs[k - 1], ss[k], results[k - 1], ds[k - 1], x);
    }
  }
}
