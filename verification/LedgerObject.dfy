/** The ledger object: transactions update accounts, order ids and the clearing house. */
module LedgerObjects {
  import opened LotMath
  import opened Orders
  import opened SpotMarkets
  import opened ClearingHouse
  import opened SpotClearingHouses
  import opened Balances
  import opened Transfers
  import opened AccountOrders
  import opened Ledger
  import opened LedgerSteps
  import opened LedgerRuns

  /** Whatever the outcomes, every transaction is legal when its turn comes. */
  ghost predicate LegalBlock(s: LedgerState, txs: seq<Tx>)
    decreases |txs|
  {
    txs == [] ||
    (LegalTx(s, txs[0]) && forall s', res, d :: TxStep(s, txs[0], s', res, d) ==> LegalBlock(s', txs[1..]))
  }

  /** What the ledger invariant says about the market an order goes to. */
  lemma {:induction false} LedgerMarketOk(s: LedgerState, k: nat)
    requires LedgerOk(s) && k < |s.house.markets|
    ensures MarketOk(s.house.markets[k]) == true
  {
  }

  /** ... and about the order a cancel names. */
  lemma {:induction false} CancelIsWithdrawable(s: LedgerState, tx: Tx)
    requires LedgerOk(s) == true && LegalTx(s, tx) && tx.CancelTx? && Reaches(s, tx)
    ensures var o := Named(s, tx); o.market < |s.house.markets| ==> Withdrawable(s.house.markets[o.market], o) == true
  {
    if Named(s, tx).market < |s.house.markets| {
      CancelCopyIsCurrent(s, tx);
    }
  }

  lemma {:induction false} LimitBumped(infos: Infos, o: LimitOrder, out: Outcome)
    ensures NonceOf(Bump(AfterLimit(PushOpen(Ensure(infos, o.account), o), o, out), o.account), o.account)
      == NonceOf(infos, o.account) + 1
  {
    var issued := PushOpen(Ensure(infos, o.account), o);
    IssueNonce(infos, o, o.account);
    LimitNonces(issued, o, out, o.account);
    BumpNonce(AfterLimit(issued, o, out), o.account, o.account);
  }

  lemma {:induction false} LimitSubmitted(s: LedgerState, tx: Tx, s': LedgerState, out: Outcome)
    requires tx.OrderTx? && tx.kind.LimitKind? && tx.market < |s.house.markets| && tx.nonce == NonceOf(s.infos, tx.from)
    requires !IsSelfCross(OpenOf(s.infos, tx.from), tx.dir, tx.kind.price)
    requires LimitStep(s.house, NewLimit(s, tx), s'.house, out) == true && s'.nextId == s.nextId + 1
    requires s'.infos == Bump(AfterLimit(PushOpen(Ensure(s.infos, tx.from), NewLimit(s, tx)), NewLimit(s, tx), out),
      tx.from)
    ensures LimitTxStep(s, tx, s', Some((tx.from, tx.nonce + 1)), out) == true
  {
    assert LimitPlaced(s, tx, s', out) == true;
    LimitPassed(s, tx, s', out);
  }

  /** The id is issued and the order opened before the market turns out to be missing. */
  lemma {:induction false} LimitInVain(s: LedgerState, tx: Tx, s': LedgerState)
    requires tx.OrderTx? && tx.kind.LimitKind? && tx.market >= |s.house.markets|
    requires tx.nonce == NonceOf(s.infos, tx.from)
    requires !IsSelfCross(OpenOf(s.infos, tx.from), tx.dir, tx.kind.price)
    requires s' == LedgerState(PushOpen(Ensure(s.infos, tx.from), NewLimit(s, tx)), s.nextId + 1, s.house)
    ensures LimitTxStep(s, tx, s', None, Refused) == true
  {
  }

  lemma {:induction false} LimitPassed(s: LedgerState, tx: Tx, s': LedgerState, out: Outcome)
    requires tx.OrderTx? && tx.kind.LimitKind? && tx.market < |s.house.markets| && tx.nonce == NonceOf(s.infos, tx.from)
    requires !IsSelfCross(OpenOf(s.infos, tx.from), tx.dir, tx.kind.price) && LimitPlaced(s, tx, s', out) == true
    ensures LimitTxStep(s, tx, s', Some((tx.from, tx.nonce + 1)), out) == true
  {
    var infos := Ensure(s.infos, tx.from);
    assert NonceOf(infos, tx.from) == NonceOf(s.infos, tx.from) && OpenOf(infos, tx.from) == OpenOf(s.infos, tx.from);
  }

  lemma {:induction false} MarketBumped(infos: Infos, id: nat, dir: Direction, size: nat, a: Account, out: Outcome)
    ensures NonceOf(Bump(AfterMarket(Ensure(infos, a), id, dir, size, a, out), a), a) == NonceOf(infos, a) + 1
  {
    MarketNonces(Ensure(infos, a), id, dir, size, a, out, a);
    BumpNonce(AfterMarket(Ensure(infos, a), id, dir, size, a, out), a, a);
  }

  lemma {:induction false} MarketSubmitted(s: LedgerState, tx: Tx, s': LedgerState, out: Outcome)
    requires tx.OrderTx? && tx.kind.MarketKind? && tx.market < |s.house.markets|
      && tx.nonce == NonceOf(s.infos, tx.from)
    requires LegalTx(s, tx) == true && s'.nextId == s.nextId + 1
    requires BuyDefined(s.house.accounts, s.house.markets[tx.market], tx.dir, tx.kind.size, tx.from) == true
    requires MarketStep(s.house, tx.market, tx.dir, tx.kind.size, tx.from, s'.house, out) == true
    requires s'.infos == Bump(AfterMarket(Ensure(s.infos, tx.from), s.nextId, tx.dir, tx.kind.size, tx.from, out),
      tx.from)
    ensures MarketTxStep(s, tx, s', Some((tx.from, tx.nonce + 1)), out) == true
  {
  }

  lemma {:induction false} CancelSubmitted(s: LedgerState, tx: Tx, s': LedgerState, ok: bool, unfilled: nat)
    requires tx.CancelTx? && tx.market < |s.house.markets| && tx.nonce == NonceOf(s.infos, tx.from)
    requires HasOpen(s.infos, tx.from, tx.orderId) && s'.nextId == s.nextId
    requires CancelStep(s.house, Named(s, tx), s.house.markets[tx.market].prec, s'.house, ok, unfilled) == true
    requires s'.infos == Bump(if ok then Complete(s.infos, tx.from, tx.orderId, Named(s, tx)) else s.infos, tx.from)
    ensures CancelTxStep(s, tx, s', Some((tx.from, NonceOf(s'.infos, tx.from))), ok, unfilled) == true
  {
    BumpNonce(if ok then Complete(s.infos, tx.from, tx.orderId, Named(s, tx)) else s.infos, tx.from, tx.from);
  }

  lemma {:induction false} RunExtended(
      ss: seq<LedgerState>, txs: seq<Tx>, i: nat, results: seq<TxResult>, ds: seq<Detail>,
                                       s': LedgerState, res: TxResult, d: Detail)
    requires i < |txs| && LedgerRun(ss, txs[..i], results, ds)
    requires TxStep(ss[i], txs[i], s', res, d) == true
    ensures LedgerRun(ss + [s'], txs[..i + 1], results + [res], ds + [d]) == true
  {
    var ss', txs', results', ds' := ss + [s'], txs[..i + 1], results + [res], ds + [d];
    forall k | 0 <= k < |txs'| ensures TxStep(ss'[k], txs'[k], ss'[k + 1], results'[k], ds'[k]) {
      if k < i {
        assert txs'[k] == txs[..i][k] && ss'[k] == ss[k] && ss'[k + 1] == ss[k + 1] && results'[k] == results[k]
            && ds'[k] == ds[k];
      }
    }
  }

  class LedgerObject {
    var infos: Infos
    var nextId: nat
    const house: SpotClearingHouse

    ghost function State(): LedgerState
      reads this, house, house.markets
    {
      LedgerState(infos, nextId, house.State())
    }

    ghost predicate Valid()
      reads this, house, house.markets
    {
      house.Distinct() && LedgerOk(State()) == true
    }

    constructor (house: SpotClearingHouse)
      requires house.Distinct()
      requires forall i :: 0 <= i < |house.markets| ==> house.markets[i].bids == house.markets[i].asks == []
      ensures Valid() && this.house == house && infos == map[] && nextId == 0
      ensures house.State() == old(house.State())
    {
      this.house, infos, nextId := house, map[], 0;
      new;
      InitialOk(house.State());
    }

    method HandleTransfer(tx: Tx) returns (res: TxResult)
      requires tx.TransferTx? && LegalTx(State(), tx) == true
      modifies this`infos, house`accounts
      ensures TransferStep(old(State()), tx, State(), res) == true
    {
      ghost var s := State();
      infos := Ensure(infos, tx.from);
      assert house.State() == s.house;
      if tx.nonce != NonceOf(infos, tx.from) {
        return None;
      }
      if !Sendable(house.accounts, tx.from, tx.asset, tx.amount) {
        SetAccounts(Touch(house.accounts, tx.from));
        return None;
      }
      infos := Ensure(infos, tx.to);
      infos := Bump(infos, tx.from);
      assert Debitable(house.accounts, tx.from, tx.asset, tx.amount);
      SetAccounts(Transferred(house.accounts, tx.from, tx.to, tx.asset, tx.amount));
      res := Some((tx.from, NonceOf(infos, tx.from)));
    }

    /** Put new balances in place; the markets stand. */
    method SetAccounts(accounts: Accounts)
      modifies house`accounts
      ensures house.State() == old(house.State()).(accounts := accounts)
    {
      ghost var ms := States(house.markets);
      house.accounts := accounts;
      assert forall i :: 0 <= i < |house.markets| ==> house.markets[i].State() == ms[i];
      assert States(house.markets) == ms;
    }

    /** Move the completely matched makers to their owners' completed orders. */
    method CompleteFilled(filled: seq<LimitOrder>)
      modifies this`infos
      ensures infos == FillAll(old(infos), filled)
    {
      for i := 0 to |filled|
        invariant FillAll(infos, filled[i..]) == FillAll(old(infos), filled)
      {
        infos := FillOne(infos, filled[i]);
        assert filled[i..][0] == filled[i] && filled[i..][1..] == filled[i + 1..];
      }
    }

    method BookMakers(r: Report)
      modifies this`infos
      ensures infos == MakerChanges(old(infos), r)
    {
      CompleteFilled(r.filled);
      if r.residual != None {
        infos := ResidualChange(infos, r.residual.value);
      }
    }

    /** Book the outcome of a limit order and advance its sender's nonce. */
    method BookLimit(o: LimitOrder, out: Outcome)
      modifies this`infos
      ensures infos == Bump(AfterLimit(old(infos), o, out), o.account)
      ensures house.State() == old(house.State())
    {
      ghost var h := house.State();
      if out.Executed? && HasOpen(infos, o.account, o.id) {
        infos := LimitChange(infos, o.account, o.id, out.report.tally.lots);
        BookMakers(out.report);
      }
      infos := Bump(infos, o.account);
      assert forall i :: 0 <= i < |house.markets| ==> house.markets[i].State() == h.markets[i];
      assert house.State() == h;
    }

    /** Book the outcome of a market order and advance its sender's nonce. */
    method BookMarket(id: nat, dir: Direction, size: nat, a: Account, out: Outcome)
      modifies this`infos
      ensures infos == Bump(AfterMarket(old(infos), id, dir, size, a, out), a)
      ensures house.State() == old(house.State())
    {
      ghost var h := house.State();
      if out.Executed? {
        infos := PushCompleted(infos, a, MarketRecord(id, dir, size, out.report.tally));
        BookMakers(out.report);
      }
      infos := Bump(infos, a);
      assert forall i :: 0 <= i < |house.markets| ==> house.markets[i].State() == h.markets[i];
      assert house.State() == h;
    }

    /** Complete a cancelled order and advance its sender's nonce. */
    method BookCancel(a: Account, id: nat, o: LimitOrder, ok: bool)
      requires HasOpen(infos, a, id)
      modifies this`infos
      ensures infos == Bump(if ok then Complete(old(infos), a, id, o) else old(infos), a)
      ensures house.State() == old(house.State())
    {
      ghost var h := house.State();
      if ok {
        infos := Complete(infos, a, id, o);
      }
      infos := Bump(infos, a);
      assert forall i :: 0 <= i < |house.markets| ==> house.markets[i].State() == h.markets[i];
      assert house.State() == h;
    }

    /** Execute an issued limit order and book the outcome. */
    method SubmitLimit(o: LimitOrder) returns (out: Outcome)
      requires house.Distinct() && o.market < |house.markets| && o.filled == 0 && o.selfFilled == 0
      requires MarketOk(house.markets[o.market].State()) == true && NewOrder(house.markets[o.market].State(), o) == true
      modifies this`infos, house`accounts, house.markets
      ensures LimitStep(old(house.State()), o, house.State(), out) == true
      ensures infos == Bump(AfterLimit(old(infos), o, out), o.account)
      ensures house.Distinct() && house.markets == old(house.markets)
    {
      out := house.PlaceLimit(o);
      BookLimit(o, out);
    }

    method HandleLimit(tx: Tx) returns (res: TxResult, ghost out: Outcome)
      requires tx.OrderTx? && tx.kind.LimitKind? && Valid() && LegalTx(State(), tx) == true
      modifies this`infos, this`nextId, house`accounts, house.markets
      ensures LimitTxStep(old(State()), tx, State(), res, out) == true
      ensures house.Distinct() && house.markets == old(house.markets)
    {
      ghost var s := State();
      out := Refused;
      infos := Ensure(infos, tx.from);
      if tx.nonce != NonceOf(infos, tx.from) || IsSelfCross(OpenOf(infos, tx.from), tx.dir, tx.kind.price) {
        return None, out;
      }
      if tx.market < |house.markets| {
        LedgerMarketOk(s, tx.market);
        IssuedIsNew(s, tx);
      }
      res, out := IssueLimit(tx, s);
    }

    /** Issue an admitted limit order, open it, and submit it to its market. */
    method IssueLimit(tx: Tx, ghost s: LedgerState) returns (res: TxResult, ghost out: Outcome)
      requires tx.OrderTx? && tx.kind.LimitKind?
      requires tx.market < |s.house.markets| ==>
        MarketOk(s.house.markets[tx.market]) == true && NewOrder(s.house.markets[tx.market], NewLimit(s, tx)) == true
      requires house.Distinct() && State() == s.(infos := Ensure(s.infos, tx.from))
      requires tx.nonce == NonceOf(s.infos, tx.from) && !IsSelfCross(OpenOf(s.infos, tx.from), tx.dir, tx.kind.price)
      modifies this`infos, this`nextId, house`accounts, house.markets
      ensures LimitTxStep(s, tx, State(), res, out) == true
      ensures house.Distinct() && house.markets == old(house.markets)
    {
      out := Refused;
      var o: LimitOrder := Order(nextId, tx.market, Open, tx.from, tx.dir, tx.kind.price, tx.kind.size, 0, 0);
      nextId := nextId + 1;
      infos := PushOpen(infos, o);
      assert house.State() == s.house;
      if tx.market >= |house.markets| {
        LimitInVain(s, tx, State());
        return None, out;
      }
      var placed := SubmitLimit(o);
      out := placed;
      res := Some((tx.from, NonceOf(infos, tx.from)));
      LimitBumped(s.infos, o, out);
      LimitSubmitted(s, tx, State(), out);
    }

    /** Execute a market order and book the outcome. */
    method SubmitMarket(k: nat, dir: Direction, size: nat, a: Account, id: nat) returns (out: Outcome)
      requires house.Distinct() && k < |house.markets| && MarketOk(house.markets[k].State()) == true
      requires BuyDefined(house.accounts, house.markets[k].State(), dir, size, a) == true
      modifies this`infos, house`accounts, house.markets
      ensures MarketStep(old(house.State()), k, dir, size, a, house.State(), out) == true
      ensures infos == Bump(AfterMarket(old(infos), id, dir, size, a, out), a)
      ensures house.Distinct() && house.markets == old(house.markets)
    {
      out := house.PlaceMarket(k, dir, size, a);
      BookMarket(id, dir, size, a, out);
    }

    method HandleMarket(tx: Tx) returns (res: TxResult, ghost out: Outcome)
      requires tx.OrderTx? && tx.kind.MarketKind? && Valid() && LegalTx(State(), tx) == true
      modifies this`infos, this`nextId, house`accounts, house.markets
      ensures MarketTxStep(old(State()), tx, State(), res, out) == true
      ensures house.Distinct() && house.markets == old(house.markets)
    {
      ghost var s := State();
      out := Refused;
      infos := Ensure(infos, tx.from);
      if tx.nonce != NonceOf(infos, tx.from) {
        return None, out;
      }
      if tx.market < |house.markets| {
        LedgerMarketOk(s, tx.market);
      }
      res, out := IssueMarket(tx, s);
    }

    method IssueMarket(tx: Tx, ghost s: LedgerState) returns (res: TxResult, ghost out: Outcome)
      requires tx.OrderTx? && tx.kind.MarketKind? && LegalTx(s, tx) == true
      requires tx.market < |s.house.markets| ==>
        && MarketOk(s.house.markets[tx.market]) == true
        && BuyDefined(s.house.accounts, s.house.markets[tx.market], tx.dir, tx.kind.size, tx.from) == true
      requires house.Distinct() && State() == s.(infos := Ensure(s.infos, tx.from))
        && tx.nonce == NonceOf(s.infos, tx.from)
      modifies this`infos, this`nextId, house`accounts, house.markets
      ensures MarketTxStep(s, tx, State(), res, out) == true
      ensures house.Distinct() && house.markets == old(house.markets)
    {
      out := Refused;
      var id := nextId;
      nextId := nextId + 1;
      assert house.State() == s.house;
      if tx.market >= |house.markets| {
        return None, out;
      }
      var placed := SubmitMarket(tx.market, tx.dir, tx.kind.size, tx.from, id);
      out := placed;
      res := Some((tx.from, NonceOf(infos, tx.from)));
      MarketBumped(s.infos, id, tx.dir, tx.kind.size, tx.from, out);
      MarketSubmitted(s, tx, State(), out);
    }

    method HandleCancel(tx: Tx) returns (res: TxResult, ghost done: bool, ghost unfilled: nat)
      requires tx.CancelTx? && Valid() && LegalTx(State(), tx) == true
      modifies this`infos, house`accounts, house.markets
      ensures CancelTxStep(old(State()), tx, State(), res, done, unfilled) == true
      ensures house.Distinct() && house.markets == old(house.markets)
    {
      ghost var s := State();
      done, unfilled := false, 0;
      if tx.nonce != NonceOf(infos, tx.from) || !HasOpen(infos, tx.from, tx.orderId) || tx.market >= |house.markets| {
        return None, done, unfilled;
      }
      CancelIsWithdrawable(s, tx);
      var ok, left := WithdrawOrder(tx.from, tx.orderId, house.markets[tx.market].prec);
      done, unfilled := ok, left;
      res := Some((tx.from, NonceOf(infos, tx.from)));
      CancelSubmitted(s, tx, State(), done, unfilled);
    }

    /** Cancel an open order and complete it. */
    method WithdrawOrder(a: Account, id: nat, p: MarketPrecision) returns (ok: bool, unfilled: nat)
      requires Valid() && HasOpen(infos, a, id)
      requires var o := OpenOf(infos, a)[IndexOf(OpenOf(infos, a), id)];
        o.market < |house.markets| ==> Withdrawable(house.State().markets[o.market], o) == true
      modifies this`infos, house`accounts, house.markets
      ensures var o := old(OpenOf(infos, a)[IndexOf(OpenOf(infos, a), id)]);
        && CancelStep(old(house.State()), o, p, house.State(), ok, unfilled) == true
        && infos == Bump(if ok then Complete(old(infos), a, id, o) else old(infos), a)
      ensures house.Distinct() && house.markets == old(house.markets)
    {
      var o := OpenOf(infos, a)[IndexOf(OpenOf(infos, a), id)];
      if o.market < |house.markets| {
        LedgerMarketOk(State(), o.market);
      }
      ok, unfilled := house.CancelOrder(o, p);
      BookCancel(a, id, o, ok);
    }

    method Handle(tx: Tx) returns (res: TxResult, ghost d: Detail)
      requires Valid() && LegalTx(State(), tx) == true
      modifies this`infos, this`nextId, house`accounts, house.markets
      ensures TxStep(old(State()), tx, State(), res, d) == true
      ensures Valid() && house.markets == old(house.markets)
    {
      ghost var s := State();
      match tx {
        case TransferTx(_, _, _, _, _) =>
          res := HandleTransfer(tx);
          d := NoDetail;
        case OrderTx(_, _, _, LimitKind(_, _), _) =>
          ghost var out;
          res, out := HandleLimit(tx);
          d := Traded(out);
        case OrderTx(_, _, _, MarketKind(_), _) =>
          ghost var out;
          res, out := HandleMarket(tx);
          d := Traded(out);
        case CancelTx(_, _, _, _) =>
          ghost var done, unfilled;
          res, done, unfilled := HandleCancel(tx);
          d := Revoked(done, unfilled);
      }
      TxKeepsOk(s, tx, State(), res, d);
    }

    /** Execute the transactions of a block, one after the other. */
    method ApplyBlock(txs: seq<Tx>) returns (results: seq<TxResult>, ghost ss: seq<LedgerState>, ghost ds: seq<Detail>)
      requires Valid() && LegalBlock(State(), txs)
      modifies this`infos, this`nextId, house`accounts, house.markets
      ensures Valid() && LedgerRun(ss, txs, results, ds)
      ensures ss[0] == old(State()) && ss[|txs|] == State()
    {
      results, ss, ds := [], [State()], [];
      for i := 0 to |txs|
        invariant Valid() && house.markets == old(house.markets)
        invariant LegalBlock(State(), txs[i..])
        invariant LedgerRun(ss, txs[..i], results, ds) == true && |ss| == i + 1
        invariant ss[0] == old(State()) && ss[i] == State()
      {
        assert txs[i..][0] == txs[i] && txs[i..][1..] == txs[i + 1..];
        ghost var s := State();
        ghost var d;
        var res;
        res, d := Handle(txs[i]);
        RunExtended(ss, txs, i, results, ds, State(), res, d);
        results, ss, ds := results + [res], ss + [State()], ds + [d];
      }
      assert txs[..|txs|] == txs;
    }
  }
}
