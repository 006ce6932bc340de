/** Runs of the ledger object that leave records at odds with what happened. */
module LedgerFailures {
  import opened LotMath
  import opened Orders
  import opened SpotMarkets
  import opened Balances
  import opened ClearingHouse
  import opened Solvency
  import opened BookFailures
  import opened HouseFailures
  import opened AccountOrders
  import opened Ledger
  import opened LedgerObjects
  import opened Records
  import opened Orphans

  /** A ledger without accounts over one market without orders. */
  function Fresh(accounts: Accounts, prec: MarketPrecision): LedgerState {
    LedgerState(map[], 0, House(accounts, [Market(0, 1, prec, [], [], None)]))
  }

  /** The order that a limit transaction will place under this id. */
  function OrderOf(tx: Tx, id: nat): LimitOrder
    requires tx.OrderTx? && tx.kind.LimitKind?
  {
    Order(id, tx.market, Open, tx.from, tx.dir, tx.kind.price, tx.kind.size, 0, 0)
  }

  /** Two funded orders of two accounts at one price, the second no larger than the first. */
  ghost predicate FillsWhole(accounts: Accounts, prec: MarketPrecision, first: Tx, second: Tx) {
    && first.OrderTx? && first.kind.LimitKind? && second.OrderTx? && second.kind.LimitKind?
    && first.nonce == 0 && second.nonce == 0
    && Opens(accounts, prec, OrderOf(first, 0)) && Opens(accounts, prec, OrderOf(second, 1))
    && Meets(OrderOf(first, 0), OrderOf(second, 1)) && second.kind.size <= first.kind.size
  }

  /** After the first transaction its order rests alone, and the second sender is untouched. */
  ghost predicate FirstDone(s: LedgerState, o: LimitOrder, s': LedgerState, b: Account) {
    && s'.nextId == 1 && FirstCame(s.house, o, s'.house)
    && OpenOf(s'.infos, b) == [] && NonceOf(s'.infos, b) == 0 && RecordsTell(s'.infos, 1)
  }

  lemma {:induction false} FirstTx(accounts: Accounts, prec: MarketPrecision, s: LedgerState, tx: Tx, s': LedgerState,
      res: TxResult, out: Outcome, b: Account)
    requires tx.OrderTx? && tx.kind.LimitKind? && tx.nonce == 0 && b != tx.from
    requires s == Fresh(accounts, prec) && Opens(accounts, prec, OrderOf(tx, 0))
    requires LegalTx(s, tx) && LimitTxStep(s, tx, s', res, out)
    ensures FirstDone(s, OrderOf(tx, 0), s', b) == true
  {
    var o := NewLimit(s, tx);
    assert NewOrder(s.house.markets[0], o) && Funded(s.house, o) && Opening(s.house);
    FirstRests(s.house, o, s'.house, out);
    TxDone(s, tx, s', res, Traded(out), b);
  }

  /** The second order will be filled whole. */
  lemma {:induction false} SecondWillFill(
      accounts: Accounts, prec: MarketPrecision, s: LedgerState, first: Tx, s1: LedgerState, second: Tx)
    requires FillsWhole(accounts, prec, first, second) && s == Fresh(accounts, prec)
    requires FirstDone(s, OrderOf(first, 0), s1, second.from)
    ensures LegalTx(s1, second) == true && WillFillOnArrival(s1, second) == true
  {
    var maker, taker := OrderOf(first, 0), OrderOf(second, 1);
    SecondFunded(s.house, maker, s1.house, taker);
    TakesAll(s1.house.markets[0], maker, taker);
  }

  /** The ledger ends with the second sender's order on record as filled, with all of it
      remaining. */
  method StaleRecordRun(accounts: Accounts, prec: MarketPrecision, first: Tx, second: Tx) returns (ledger: LedgerObject)
    requires FillsWhole(accounts, prec, first, second)
    ensures fresh(ledger)
    ensures var c := OrderOf(second, 1).(status := Filled);
      CompletedLimit(c) in DoneOf(ledger.infos, second.from) && Remaining(c) == second.kind.size > 0
  {
    var house := OpenHouse(accounts, prec);
    ledger := new LedgerObject(house);
    ghost var s := ledger.State();
    assert s == Fresh(accounts, prec);
    var res, d := ledger.Handle(first);
    ghost var s1 := ledger.State();
    FirstTx(accounts, prec, s, first, s1, res, d.out, second.from);
    SecondWillFill(accounts, prec, s, first, s1, second);
    res, d := ledger.Handle(second);
    ArrivalIff(s1, second, ledger.State(), res, d.out);
    ArrivalRecordIsStale(s1, second, ledger.State(), res, d);
  }

  /** Such transactions exist at the program's own lot sizes. */
  lemma {:induction false} StaleInputs(accounts: Accounts, p: MarketPrecision, ask: Tx, bid: Tx)
    requires Purses(accounts) && p == Precision(100, 100, 100, 3)
    requires ask == OrderTx(2, 0, Sell, LimitKind(10, 4), 0) && bid == OrderTx(1, 0, Buy, LimitKind(10, 4), 0)
    ensures FillsWhole(accounts, p, ask, bid)
  {
    ProgramMarket(p);
    var a, b := OrderOf(ask, 0), OrderOf(bid, 1);
    TenthAmount(p, a.dir, a.base, a.price);
    TenthAmount(p, b.dir, b.base, b.price);
    PursesUnlocked(accounts);
    PursesHold(accounts, 1, 1);
    PursesHold(accounts, 2, 0);
  }

  /** A single order that its sender cannot fund: its copy is open, and it is in no book. */
  method OrphanRun(accounts: Accounts, prec: MarketPrecision, tx: Tx) returns (ledger: LedgerObject)
    requires Unlocked(accounts) && tx.OrderTx? && tx.kind.LimitKind? && tx.nonce == 0 && tx.kind.size > 0
    requires !Funded(Fresh(accounts, prec).house, OrderOf(tx, 0))
    ensures fresh(ledger) && HasOpen(ledger.infos, tx.from, 0) && !InBook(ledger.State().house, 0)
  {
    var house := OpenHouse(accounts, prec);
    ledger := new LedgerObject(house);
    ghost var s := ledger.State();
    assert s == Fresh(accounts, prec);
    var res, d := ledger.Handle(tx);
    VainOrder(s, tx, ledger.State(), res, d.out);
  }

  lemma {:induction false} VainOrder(s: LedgerState, tx: Tx, s': LedgerState, res: TxResult, out: Outcome)
    requires LedgerOk(s) == true && LegalTx(s, tx) && tx.OrderTx? && tx.kind.LimitKind? && tx.nonce == 0
    requires s.infos == map[] && s.nextId == 0 && !Funded(s.house, NewLimit(s, tx)) && LimitTxStep(s, tx, s', res, out)
    ensures HasOpen(s'.infos, tx.from, 0) && !InBook(s'.house, 0)
  {
    var o := NewLimit(s, tx);
    assert OpenOf(s'.infos, tx.from) == [o];
    NoneOpen([o], 0);
    LimitCopyStep(s, tx, s', res, out, tx.from, 0);
  }
}
