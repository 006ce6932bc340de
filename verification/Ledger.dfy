/** The ledger state: transactions are gated by nonces, orders go to the clearing house, and
    the account copies of open orders follow the book. */
module Ledger {
  import opened Orders
  import opened BookEdits
  import opened Sweeps
  import opened SpotMarkets
  import opened ClearingHouse
  import opened AccountOrders
  import opened Transfers

  datatype LedgerState = LedgerState(infos: Infos, nextId: nat, house: House)

  datatype OrderKind = LimitKind(price: nat, size: nat) | MarketKind(size: nat)

  datatype Tx =
    | TransferTx(from: Account, to: Account, asset: Asset, amount: nat, nonce: nat)
    | OrderTx(from: Account, market: nat, dir: Direction, kind: OrderKind, nonce: nat)
    | CancelTx(from: Account, market: nat, orderId: nat, nonce: nat)

  /** The account and its next expected nonce, if the transaction was executed. */
  type TxResult = Option<(Account, nat)>

  /** An own open order on the other side that the price would reach. */
  predicate IsSelfCross(open: seq<LimitOrder>, dir: Direction, price: nat) {
    exists i :: 0 <= i < |open| && open[i].dir == Opposite(dir) && Acceptable(Opposite(dir), price, open[i].price)
  }

  function NewLimit(s: LedgerState, tx: Tx): LimitOrder
    requires tx.OrderTx? && tx.kind.LimitKind?
  {
    Order(s.nextId, tx.market, Open, tx.from, tx.dir, tx.kind.price, tx.kind.size, 0, 0)
  }

  /** Account updates after a limit order was handled. */
  function AfterLimit(infos: Infos, o: LimitOrder, out: Outcome): Infos {
    if out.Executed? && HasOpen(infos, o.account, o.id)
    then MakerChanges(LimitChange(infos, o.account, o.id, out.report.tally.lots), out.report)
    else infos
  }

  function MarketRecord(id: nat, dir: Direction, size: nat, t: Tally): CompletedOrder {
    var filled := if dir == Buy then t.quote else t.lots;
    CompletedMarket(id, dir, size, filled, if dir == Buy then t.ownQuote else t.ownLots,
                    if filled < size then PartiallyFilled else Filled)
  }

  function PushCompleted(infos: Infos, a: Account, c: CompletedOrder): Infos {
    infos[a := InfoOf(infos, a).(completed := InfoOf(infos, a).completed + [c])]
  }

  function AfterMarket(infos: Infos, id: nat, dir: Direction, size: nat, a: Account, out: Outcome): Infos {
    if out.Executed? then MakerChanges(PushCompleted(infos, a, MarketRecord(id, dir, size, out.report.tally)),
        out.report)
    else infos
  }

  // ---------- steps ----------

  /** The open order a cancel names. */
  function Named(s: LedgerState, tx: Tx): LimitOrder
    requires tx.CancelTx? && HasOpen(s.infos, tx.from, tx.orderId)
  {
    OpenOf(s.infos, tx.from)[IndexOf(OpenOf(s.infos, tx.from), tx.orderId)]
  }

  /** The transaction gets past the nonce, self-cross and lookup checks to the clearing house. */
  ghost predicate Reaches(s: LedgerState, tx: Tx) {
    && tx.nonce == NonceOf(s.infos, tx.from)
    && match tx
       case TransferTx(_, _, _, _, _) => false
       case OrderTx(from, m, dir, LimitKind(price, _), _) =>
         m < |s.house.markets| && !IsSelfCross(OpenOf(s.infos, from), dir, price)
       case OrderTx(_, m, _, MarketKind(_), _) => m < |s.house.markets|
       case CancelTx(from, m, id, _) => m < |s.house.markets| && HasOpen(s.infos, from, id)
  }

  /** What the ledger relies on its clients for, of transactions that get that far: limit
      orders have a size, market buys are funded and meet priced asks, a cancelled order that
      traded with its owner does not upset its level, and the position a transfer debits
      exists and holds the amount. */
  ghost predicate LegalTx(s: LedgerState, tx: Tx) {
    && (Sends(s, tx) ==> Debitable(s.house.accounts, tx.from, tx.asset, tx.amount))
    && (Reaches(s, tx) ==> LegalOrder(s, tx))
  }

  /** A transfer that passes the nonce and funds checks. */
  ghost predicate Sends(s: LedgerState, tx: Tx) {
    && tx.TransferTx? && tx.nonce == NonceOf(s.infos, tx.from)
    && Sendable(s.house.accounts, tx.from, tx.asset, tx.amount)
  }

  ghost predicate LegalOrder(s: LedgerState, tx: Tx)
    requires Reaches(s, tx)
  {
    match tx
    case OrderTx(_, _, _, LimitKind(_, size), _) => size > 0
    case OrderTx(from, m, dir, MarketKind(size), _) =>
      BuyDefined(s.house.accounts, s.house.markets[m], dir, size, from)
    case CancelTx(_, _, _, _) => CancelLegal(s, Named(s, tx))
  }

  ghost predicate CancelLegal(s: LedgerState, o: LimitOrder) {
    o.market < |s.house.markets| ==> CancelSafe(Flatten(Side(s.house.markets[o.market], o.dir)), o)
  }

  // A transaction that reaches the clearing house without being legal may do anything to it.

  ghost predicate TransferStep(s: LedgerState, tx: Tx, s': LedgerState, res: TxResult)
    requires tx.TransferTx?
  {
    var infos := Ensure(s.infos, tx.from);
    if tx.nonce != NonceOf(infos, tx.from) then
      res == None && s' == s.(infos := infos)
    else if !Sendable(s.house.accounts, tx.from, tx.asset, tx.amount) then
      res == None && s' == LedgerState(infos, s.nextId, s.house.(accounts := Touch(s.house.accounts, tx.from)))
    else
      && res == Some((tx.from, tx.nonce + 1))
      && (LegalTx(s, tx) ==>
            s'.house == s.house.(accounts := Transferred(s.house.accounts, tx.from, tx.to, tx.asset, tx.amount)))
      && s'.nextId == s.nextId && s'.infos == Bump(Ensure(infos, tx.to), tx.from)
  }

  ghost predicate LimitTxStep(s: LedgerState, tx: Tx, s': LedgerState, res: TxResult, out: Outcome)
    requires tx.OrderTx? && tx.kind.LimitKind?
  {
    var infos, o := Ensure(s.infos, tx.from), NewLimit(s, tx);
    if tx.nonce != NonceOf(infos, tx.from) || IsSelfCross(OpenOf(infos, tx.from), tx.dir, tx.kind.price) then
      res == None && s' == s.(infos := infos)
    else if tx.market >= |s.house.markets| then
      res == None && s' == LedgerState(PushOpen(infos, o), s.nextId + 1, s.house)
    else
      res == Some((tx.from, tx.nonce + 1)) && LimitPlaced(s, tx, s', out)
  }

  ghost predicate LimitPlaced(s: LedgerState, tx: Tx, s': LedgerState, out: Outcome)
    requires tx.OrderTx? && tx.kind.LimitKind?
  {
    var infos, o := Ensure(s.infos, tx.from), NewLimit(s, tx);
    && (LegalTx(s, tx) ==> LimitStep(s.house, o, s'.house, out))
    && s'.nextId == s.nextId + 1
    && s'.infos == Bump(AfterLimit(PushOpen(infos, o), o, out), tx.from)
  }

  ghost predicate MarketTxStep(s: LedgerState, tx: Tx, s': LedgerState, res: TxResult, out: Outcome)
    requires tx.OrderTx? && tx.kind.MarketKind?
  {
    var infos := Ensure(s.infos, tx.from);
    if tx.nonce != NonceOf(infos, tx.from) then
      res == None && s' == s.(infos := infos)
    else if tx.market >= |s.house.markets| then
      res == None && s' == LedgerState(infos, s.nextId + 1, s.house)
    else
      && res == Some((tx.from, tx.nonce + 1))
      && (LegalTx(s, tx) ==> MarketStep(s.house, tx.market, tx.dir, tx.kind.size, tx.from, s'.house, out))
      && s'.nextId == s.nextId + 1
      && s'.infos == Bump(AfterMarket(infos, s.nextId, tx.dir, tx.kind.size, tx.from, out), tx.from)
  }

  ghost predicate CancelTxStep(s: LedgerState, tx: Tx, s': LedgerState, res: TxResult, ok: bool, unfilled: nat)
    requires tx.CancelTx?
  {
    if tx.nonce != NonceOf(s.infos, tx.from) || !HasOpen(s.infos, tx.from, tx.orderId)
        || tx.market >= |s.house.markets| then
      res == None && s' == s
    else
      var o := Named(s, tx);
      && res == Some((tx.from, tx.nonce + 1))
      && (LegalTx(s, tx) ==> CancelStep(s.house, o, s.house.markets[tx.market].prec, s'.house, ok, unfilled))
      && s'.nextId == s.nextId
      && s'.infos == Bump(if ok then Complete(s.infos, tx.from, tx.orderId, o) else s.infos, tx.from)
  }

  /** What happened inside a step. */
  datatype Detail = NoDetail | Traded(out: Outcome) | Revoked(ok: bool, unfilled: nat)

  ghost predicate TxStep(s: LedgerState, tx: Tx, s': LedgerState, res: TxResult, d: Detail) {
    match tx
    case TransferTx(_, _, _, _, _) => TransferStep(s, tx, s', res)
    case OrderTx(_, _, _, LimitKind(_, _), _) => d.Traded? && LimitTxStep(s, tx, s', res, d.out)
    case OrderTx(_, _, _, MarketKind(_), _) => d.Traded? && MarketTxStep(s, tx, s', res, d.out)
    case CancelTx(_, _, _, _) => d.Revoked? && CancelTxStep(s, tx, s', res, d.ok, d.unfilled)
  }

  // ---------- the mirror invariant ----------

  /** All orders of a list are filed under market `k` and direction `dir`, and each has its
      copy among its owner's open orders. */
  ghost predicate AllMirrored(infos: Infos, list: seq<LimitOrder>, dir: Direction, k: nat) {
    forall i :: 0 <= i < |list| ==> list[i].market == k && list[i].dir == dir && Mirrored(infos, list[i])
  }

  /** One side of a market: its live orders are mirrored, no cancelled entry that is still
      in the book is open, and all ids were issued before `bound`. */
  ghost predicate SideMirror(infos: Infos, bound: nat, dir: Direction, levels: seq<Level>, k: nat) {
    && AllMirrored(infos, Flatten(levels), dir, k)
    && (forall id: nat :: HasDead(levels, id) ==> !OpenId(infos, id) && id < bound)
    && FreshId(levels, bound)
  }

  ghost predicate SideAt(s: LedgerState, k: nat, dir: Direction) {
    k < |s.house.markets| ==> SideMirror(s.infos, s.nextId, dir, Side(s.house.markets[k], dir), k)
  }

  /** All books are in order and uncrossed. */
  ghost predicate BooksOk(h: House) {
    forall k {:trigger h.markets[k]} :: 0 <= k < |h.markets| ==> MarketOk(h.markets[k])
  }

  ghost predicate LedgerOk(s: LedgerState) {
    && Tidy(s.infos, s.nextId) && BooksOk(s.house)
    && forall k: nat, dir :: SideAt(s, k, dir)
  }

  /** An empty ledger with empty books, whose first order id is 0. */
  lemma {:induction false} InitialOk(house: House)
    requires forall k :: 0 <= k < |house.markets| ==> house.markets[k].bids == house.markets[k].asks == []
    ensures LedgerOk(LedgerState(map[], 0, house))
  {
  }
}
