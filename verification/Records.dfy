/** What an account's open and completed orders say about the orders it placed, over whole runs. */
module Records {
  import opened Orders
  import opened Matching
  import opened SpotMarkets
  import opened ClearingHouse
  import opened Solvency
  import opened AccountOrders
  import opened Ledger
  import opened LedgerRuns

  // ---------- ids on record ----------

  function RecordId(c: CompletedOrder): nat { if c.CompletedLimit? then c.o.id else c.id }

  function OpenTimes(open: seq<LimitOrder>, n: nat): nat {
    if open == [] then 0 else (if open[0].id == n then 1 else 0) + OpenTimes(open[1..], n)
  }

  function DoneTimes(done: seq<CompletedOrder>, n: nat): nat {
    if done == [] then 0
    else DoneTimes(done[..|done| - 1], n) + if RecordId(done[|done| - 1]) == n then 1 else 0
  }

  /** How often an id occurs among an account's open and completed orders. */
  function Times(info: AccountInfo, n: nat): nat { OpenTimes(info.open, n) + DoneTimes(info.completed, n) }

  function Recorded(infos: Infos, a: Account, n: nat): nat { Times(InfoOf(infos, a), n) }

  lemma {:induction false} OpenTimesAppend(a: seq<LimitOrder>, b: seq<LimitOrder>, n: nat)
    ensures OpenTimes(a + b, n) == OpenTimes(a, n) + OpenTimes(b, n)
  {
    if a == [] {
      assert a + b == b;
    } else {
      assert (a + b)[1..] == a[1..] + b;
      OpenTimesAppend(a[1..], b, n);
    }
  }

  lemma {:induction false} OpenTimesAt(open: seq<LimitOrder>, i: nat, e: LimitOrder, n: nat)
    requires i < |open|
    ensures OpenTimes(open, n) == OpenTimes(RemoveAt(open, i), n) + if open[i].id == n then 1 else 0
    ensures e.id == open[i].id ==> OpenTimes(open[i := e], n) == OpenTimes(open, n)
  {
    var l, r := open[..i], open[i + 1..];
    assert open == l + ([open[i]] + r) && open[i := e] == l + ([e] + r);
    OpenTimesAppend(l, [open[i]] + r, n);
    OpenTimesAppend(l, [e] + r, n);
    OpenTimesAppend(l, r, n);
    assert ([open[i]] + r)[1..] == r && ([e] + r)[1..] == r;
  }

  lemma {:induction false} DoneTimesPush(done: seq<CompletedOrder>, c: CompletedOrder, n: nat)
    ensures DoneTimes(done + [c], n) == DoneTimes(done, n) + if RecordId(c) == n then 1 else 0
  {
    assert (done + [c])[..|done|] == done;
  }

  lemma {:induction false} CompleteKeeps(infos: Infos, a: Account, id: nat, done: LimitOrder, b: Account, n: nat)
    requires HasOpen(infos, a, id) && done.id == id
    ensures Recorded(Complete(infos, a, id, done), b, n) == Recorded(infos, b, n)
  {
    var info := InfoOf(infos, a);
    OpenTimesAt(info.open, IndexOf(info.open, id), done, n);
    DoneTimesPush(info.completed, CompletedLimit(done), n);
  }

  lemma {:induction false} ReplaceKeeps(infos: Infos, a: Account, i: nat, e: LimitOrder, b: Account, n: nat)
    requires i < |OpenOf(infos, a)| && e.id == OpenOf(infos, a)[i].id
    ensures Recorded(infos[a := InfoOf(infos, a).(open := OpenOf(infos, a)[i := e])], b, n) == Recorded(infos, b, n)
  {
    OpenTimesAt(OpenOf(infos, a), i, e, n);
  }

  lemma {:induction false} FillOneKeeps(infos: Infos, f: LimitOrder, b: Account, n: nat)
    ensures Recorded(FillOne(infos, f), b, n) == Recorded(infos, b, n)
  {
    if HasOpen(infos, f.account, f.id) {
      var o := OpenOf(infos, f.account)[IndexOf(OpenOf(infos, f.account), f.id)];
      var done: LimitOrder :=
        if f.selfFilled <= o.base
        then o.(status := Filled, selfFilled := f.selfFilled, filled := o.base - f.selfFilled)
        else o;
      CompleteKeeps(infos, f.account, f.id, done, b, n);
    }
  }

  lemma {:induction false} FillAllKeeps(infos: Infos, filled: seq<LimitOrder>, b: Account, n: nat)
    ensures Recorded(FillAll(infos, filled), b, n) == Recorded(infos, b, n)
    decreases |filled|
  {
    if filled != [] {
      FillOneKeeps(infos, filled[0], b, n);
      FillAllKeeps(FillOne(infos, filled[0]), filled[1..], b, n);
    }
  }

  lemma {:induction false} MakersKeep(infos: Infos, r: Report, b: Account, n: nat)
    ensures Recorded(MakerChanges(infos, r), b, n) == Recorded(infos, b, n)
  {
    FillAllKeeps(infos, r.filled, b, n);
    if r.residual != None {
      var mid, x := FillAll(infos, r.filled), r.residual.value;
      var open := OpenOf(mid, x.account);
      var i := IndexOf(open, x.id);
      if i < |open| && x.filled + x.selfFill <= Remaining(open[i]) {
        ReplaceKeeps(mid, x.account, i, Booked(open[i], x), b, n);
      }
    }
  }

  lemma {:induction false} LimitChangeKeeps(infos: Infos, a: Account, id: nat, lots: nat, b: Account, n: nat)
    requires HasOpen(infos, a, id)
    ensures Recorded(LimitChange(infos, a, id, lots), b, n) == Recorded(infos, b, n)
  {
    var open := OpenOf(infos, a);
    var i := IndexOf(open, id);
    if lots < Remaining(open[i]) {
      ReplaceKeeps(infos, a, i, open[i].(status := PartiallyFilled, filled := open[i].filled + lots), b, n);
    } else {
      CompleteKeeps(infos, a, id, open[i].(status := Filled), b, n);
    }
  }

  lemma {:induction false} PushAdds(infos: Infos, o: LimitOrder, b: Account, n: nat)
    ensures Recorded(PushOpen(infos, o), b, n) == Recorded(infos, b, n) + if b == o.account && n == o.id then 1 else 0
  {
    OpenTimesAppend(OpenOf(infos, o.account), [o], n);
    assert [o][1..] == [];
    assert OpenTimes([o], n) == (if o.id == n then 1 else 0) + OpenTimes([], n);
  }

  // ---------- one transaction ----------

  /** The account and id under which a transaction puts a new order on record: every limit
      order that passes the nonce and self-cross checks, every executed market order. */
  function NewRecord(s: LedgerState, tx: Tx, d: Detail): Option<(Account, nat)> {
    if !tx.OrderTx? || tx.nonce != NonceOf(s.infos, tx.from) then None
    else if tx.kind.LimitKind? then
      if IsSelfCross(OpenOf(s.infos, tx.from), tx.dir, tx.kind.price) then None else Some((tx.from, s.nextId))
    else if tx.market < |s.house.markets| && d.Traded? && d.out.Executed? then Some((tx.from, s.nextId))
    else None
  }

  /** A transaction puts exactly its own order on record, under a fresh id, and takes nothing
      off it. */
  ghost predicate RecordStep(s: LedgerState, tx: Tx, s': LedgerState, d: Detail, b: Account, n: nat) {
    var e := NewRecord(s, tx, d);
    && Recorded(s'.infos, b, n) == Recorded(s.infos, b, n) + (if e == Some((b, n)) then 1 else 0)
    && s.nextId + (if e == None then 0 else 1) <= s'.nextId && (e != None ==> e.value.1 == s.nextId)
  }

  lemma {:induction false} LimitRecords(infos: Infos, o: LimitOrder, out: Outcome, b: Account, n: nat)
    ensures Recorded(AfterLimit(infos, o, out), b, n) == Recorded(infos, b, n)
  {
    if out.Executed? && HasOpen(infos, o.account, o.id) {
      LimitChangeKeeps(infos, o.account, o.id, out.report.tally.lots, b, n);
      MakersKeep(LimitChange(infos, o.account, o.id, out.report.tally.lots), out.report, b, n);
    }
  }

  lemma {:induction false} MarketRecords(
      infos: Infos, id: nat, dir: Direction, size: nat, a: Account, out: Outcome, b: Account, n: nat)
    ensures Recorded(AfterMarket(infos, id, dir, size, a, out), b, n)
         == Recorded(infos, b, n) + if b == a && n == id && out.Executed? then 1 else 0
  {
    if out.Executed? {
      var c := MarketRecord(id, dir, size, out.report.tally);
      DoneTimesPush(InfoOf(infos, a).completed, c, n);
      MakersKeep(PushCompleted(infos, a, c), out.report, b, n);
    }
  }

  lemma {:induction false} TouchedSame(infos: Infos, a: Account, b: Account, n: nat)
    ensures Recorded(Ensure(infos, a), b, n) == Recorded(infos, b, n) == Recorded(Bump(infos, a), b, n)
  {
  }

  lemma {:induction false} LimitTxRecords(
      s: LedgerState, tx: Tx, s': LedgerState, res: TxResult, out: Outcome, b: Account, n: nat)
    requires tx.OrderTx? && tx.kind.LimitKind? && LimitTxStep(s, tx, s', res, out)
    ensures RecordStep(s, tx, s', Traded(out), b, n) == true
  {
    var infos, o := Ensure(s.infos, tx.from), NewLimit(s, tx);
    var after := AfterLimit(PushOpen(infos, o), o, out);
    TouchedSame(s.infos, tx.from, b, n);
    PushAdds(infos, o, b, n);
    LimitRecords(PushOpen(infos, o), o, out, b, n);
    TouchedSame(after, tx.from, b, n);
  }

  lemma {:induction false} MarketTxRecords(
      s: LedgerState, tx: Tx, s': LedgerState, res: TxResult, out: Outcome, b: Account, n: nat)
    requires tx.OrderTx? && tx.kind.MarketKind? && MarketTxStep(s, tx, s', res, out)
    ensures RecordStep(s, tx, s', Traded(out), b, n) == true
  {
    var infos := Ensure(s.infos, tx.from);
    TouchedSame(s.infos, tx.from, b, n);
    MarketRecords(infos, s.nextId, tx.dir, tx.kind.size, tx.from, out, b, n);
    TouchedSame(AfterMarket(infos, s.nextId, tx.dir, tx.kind.size, tx.from, out), tx.from, b, n);
  }

  lemma {:induction false} CancelTxRecords(
      s: LedgerState, tx: Tx, s': LedgerState, res: TxResult, ok: bool, unfilled: nat, b: Account, n: nat)
    requires tx.CancelTx? && CancelTxStep(s, tx, s', res, ok, unfilled)
    ensures RecordStep(s, tx, s', Revoked(ok, unfilled), b, n) == true
  {
    if res != None {
      var after := if ok then Complete(s.infos, tx.from, tx.orderId, Named(s, tx)) else s.infos;
      CompleteKeeps(s.infos, tx.from, tx.orderId, Named(s, tx), b, n);
      TouchedSame(after, tx.from, b, n);
    }
  }

  lemma {:induction false} TransferRecords(
      s: LedgerState, tx: Tx, s': LedgerState, res: TxResult, d: Detail, b: Account, n: nat)
    requires tx.TransferTx? && TransferStep(s, tx, s', res)
    ensures RecordStep(s, tx, s', d, b, n) == true
  {
  }

  lemma {:induction false} TxRecords(
      s: LedgerState, tx: Tx, s': LedgerState, res: TxResult, d: Detail, b: Account, n: nat)
    requires TxStep(s, tx, s', res, d)
    ensures RecordStep(s, tx, s', d, b, n) == true
  {
    match tx
    case TransferTx(_, _, _, _, _) => TransferRecords(s, tx, s', res, d, b, n);
    case OrderTx(_, _, _, LimitKind(_, _), _) => LimitTxRecords(s, tx, s', res, d.out, b, n);
    case OrderTx(_, _, _, MarketKind(_), _) => MarketTxRecords(s, tx, s', res, d.out, b, n);
    case CancelTx(_, _, _, _) => CancelTxRecords(s, tx, s', res, d.ok, d.unfilled, b, n);
  }

  // ---------- runs ----------

  /** Step `i` puts order `n` of account `b` on record. */
  ghost predicate PlacedAt(ss: seq<LedgerState>, txs: seq<Tx>, ds: seq<Detail>, i: nat, b: Account, n: nat)
    requires |ss| == |txs| + 1 && |ds| == |txs|
  {
    i < |txs| && NewRecord(ss[i], txs[i], ds[i]) == Some((b, n))
  }

  ghost predicate PlacedBefore(ss: seq<LedgerState>, txs: seq<Tx>, ds: seq<Detail>, k: nat, b: Account, n: nat)
    requires |ss| == |txs| + 1 && |ds| == |txs|
  {
    exists i: nat :: i < k && PlacedAt(ss, txs, ds, i, b, n)
  }

  /** The records of consecutive states. */
  ghost predicate RecordSteps(ss: seq<LedgerState>, txs: seq<Tx>, ds: seq<Detail>, b: Account, n: nat) {
    && |ss| == |txs| + 1 && |ds| == |txs|
    && forall i {:trigger txs[i]} :: 0 <= i < |txs| ==> RecordStep(ss[i], txs[i], ss[i + 1], ds[i], b, n)
  }

  lemma {:induction false} RunRecords(
      ss: seq<LedgerState>, txs: seq<Tx>, results: seq<TxResult>, ds: seq<Detail>, b: Account, n: nat)
    requires LedgerRun(ss, txs, results, ds)
    ensures RecordSteps(ss, txs, ds, b, n) == true
  {
    forall i | 0 <= i < |txs| ensures RecordStep(ss[i], txs[i], ss[i + 1], ds[i], b, n) {
      TxRecords(ss[i], txs[i], ss[i + 1], results[i], ds[i], b, n);
    }
  }

  lemma {:induction false} OnceSoFar(ss: seq<LedgerState>, txs: seq<Tx>, ds: seq<Detail>, k: nat, b: Account, n: nat)
    requires RecordSteps(ss, txs, ds, b, n) && k <= |txs| && Recorded(ss[0].infos, b, n) == 0
    ensures Recorded(ss[k].infos, b, n) == if PlacedBefore(ss, txs, ds, k, b, n) then 1 else 0
    ensures PlacedBefore(ss, txs, ds, k, b, n) ==> n < ss[k].nextId
  {
    if k > 0 {
      OnceSoFar(ss, txs, ds, k - 1, b, n);
      assert RecordStep(ss[k - 1], txs[k - 1], ss[k], ds[k - 1], b, n);
      MoreBefore(ss, txs, ds, k, b, n);
    }
  }

  lemma {:induction false} MoreBefore(ss: seq<LedgerState>, txs: seq<Tx>, ds: seq<Detail>, k: nat, b: Account, n: nat)
    requires |ss| == |txs| + 1 && |ds| == |txs| && 0 < k <= |txs|
    ensures PlacedBefore(ss, txs, ds, k, b, n)
        <==> PlacedBefore(ss, txs, ds, k - 1, b, n) || NewRecord(ss[k - 1], txs[k - 1], ds[k - 1]) == Some((b, n))
  {
    if NewRecord(ss[k - 1], txs[k - 1], ds[k - 1]) == Some((b, n)) {
      assert PlacedAt(ss, txs, ds, k - 1, b, n);
    }
  }

  /** No order is lost and none is doubled: in every state of every run each placed order is on
      record exactly once, open or completed, under its owner, and no other order is. */
  lemma {:induction false} RecordedOnce(
      ss: seq<LedgerState>, txs: seq<Tx>, results: seq<TxResult>, ds: seq<Detail>, k: nat, b: Account, n: nat)
    requires LedgerRun(ss, txs, results, ds) == true && |ss| == |txs| + 1 && |ds| == |txs| && k <= |txs|
    requires Recorded(ss[0].infos, b, n) == 0
    ensures Recorded(ss[k].infos, b, n) == if PlacedBefore(ss, txs, ds, k, b, n) then 1 else 0
  {
    RunRecords(ss, txs, results, ds, b, n);
    OnceSoFar(ss, txs, ds, k, b, n);
  }

  /** One id is placed once in a run, for one account. */
  lemma {:induction false} PlacedOnce(
      ss: seq<LedgerState>, txs: seq<Tx>, results: seq<TxResult>, ds: seq<Detail>, i: nat, j: nat, a: Account,
          b: Account, n: nat)
    requires LedgerRun(ss, txs, results, ds) == true && |ss| == |txs| + 1 && |ds| == |txs| && i <= j
    requires PlacedAt(ss, txs, ds, i, a, n) && PlacedAt(ss, txs, ds, j, b, n)
    ensures i == j && a == b
  {
    if i < j {
      RunRecords(ss, txs, results, ds, b, n);
      IdsGrow(ss, txs, ds, i, j, b, n);
    }
  }

  lemma {:induction false} IdsGrow(
      ss: seq<LedgerState>, txs: seq<Tx>, ds: seq<Detail>, i: nat, j: nat, b: Account, n: nat)
    requires RecordSteps(ss, txs, ds, b, n) && i < j <= |txs| && NewRecord(ss[i], txs[i], ds[i]) != None
    ensures ss[i].nextId < ss[j].nextId
    decreases j
  {
    assert RecordStep(ss[j - 1], txs[j - 1], ss[j], ds[j - 1], b, n);
    if i < j - 1 {
      IdsGrow(ss, txs, ds, i, j - 1, b, n);
    }
  }

  // ---------- open orders ----------

  /** Open orders are not marked filled and were issued before `bound`. */
  ghost predicate OpenTells(open: seq<LimitOrder>, bound: nat) {
    forall i :: 0 <= i < |open| ==> open[i].status != Filled && open[i].id < bound
  }

  ghost predicate RecordsTell(infos: Infos, bound: nat) {
    forall a :: OpenTells(OpenOf(infos, a), bound)
  }

  /** Only the open orders of `a` changed, and they tell. */
  lemma {:induction false} OneTells(infos: Infos, infos': Infos, a: Account, bound: nat)
    requires RecordsTell(infos, bound) && OpenTells(OpenOf(infos', a), bound)
    requires forall b :: b != a ==> OpenOf(infos', b) == OpenOf(infos, b)
    ensures RecordsTell(infos', bound) == true
  {
    forall b ensures OpenTells(OpenOf(infos', b), bound) {
      assert OpenTells(OpenOf(infos, b), bound);
    }
  }

  lemma {:induction false} CompleteTells(infos: Infos, a: Account, id: nat, done: LimitOrder, bound: nat)
    requires RecordsTell(infos, bound) && HasOpen(infos, a, id)
    ensures RecordsTell(Complete(infos, a, id, done), bound) == true
  {
    assert OpenTells(OpenOf(infos, a), bound);
    OneTells(infos, Complete(infos, a, id, done), a, bound);
  }

  lemma {:induction false} EditTells(infos: Infos, a: Account, i: nat, e: LimitOrder, bound: nat)
    requires RecordsTell(infos, bound) && i < |OpenOf(infos, a)| && e.status != Filled && e.id < bound
    ensures RecordsTell(infos[a := InfoOf(infos, a).(open := OpenOf(infos, a)[i := e])], bound) == true
  {
    assert OpenTells(OpenOf(infos, a), bound);
    OneTells(infos, infos[a := InfoOf(infos, a).(open := OpenOf(infos, a)[i := e])], a, bound);
  }

  lemma {:induction false} SameTells(infos: Infos, infos': Infos, bound: nat, bound': nat)
    requires RecordsTell(infos, bound) && bound <= bound' && forall a :: OpenOf(infos', a) == OpenOf(infos, a)
    ensures RecordsTell(infos', bound') == true
  {
    forall b ensures OpenTells(OpenOf(infos', b), bound') {
      assert OpenTells(OpenOf(infos, b), bound);
    }
  }

  // ---------- completed records ----------

  /** Marked filled, although its counters say that something remains. */
  predicate Stale(c: CompletedOrder) { c.CompletedLimit? && c.o.status == Filled && Remaining(c.o) > 0 }

  function DoneOf(infos: Infos, a: Account): seq<CompletedOrder> { InfoOf(infos, a).completed }

  /** Completed orders only grow, and by no stale record. */
  ghost predicate Grows(done: seq<CompletedOrder>, done': seq<CompletedOrder>) {
    done <= done' && forall i :: |done| <= i < |done'| ==> !Stale(done'[i])
  }

  lemma {:induction false} GrowsTrans(a: seq<CompletedOrder>, b: seq<CompletedOrder>, c: seq<CompletedOrder>)
    requires Grows(a, b) && Grows(b, c)
    ensures Grows(a, c) == true
  {
    forall i | |a| <= i < |c| ensures !Stale(c[i]) {
      assert i < |b| ==> c[i] == b[i];
    }
  }

  /** The record of a completely matched maker is not stale. */
  lemma {:induction false} FillOneGrows(infos: Infos, f: LimitOrder, bound: nat, a: Account)
    requires RecordsTell(infos, bound)
    ensures RecordsTell(FillOne(infos, f), bound) == true
      && Grows(DoneOf(infos, a), DoneOf(FillOne(infos, f), a)) == true
  {
    if HasOpen(infos, f.account, f.id) {
      assert OpenTells(OpenOf(infos, f.account), bound);
      var o := OpenOf(infos, f.account)[IndexOf(OpenOf(infos, f.account), f.id)];
      var done: LimitOrder :=
        if f.selfFilled <= o.base
        then o.(status := Filled, selfFilled := f.selfFilled, filled := o.base - f.selfFilled)
        else o;
      CompleteTells(infos, f.account, f.id, done, bound);
    } else {
      SameTells(infos, FillOne(infos, f), bound, bound);
    }
  }

  lemma {:induction false} FillAllGrows(infos: Infos, filled: seq<LimitOrder>, bound: nat, a: Account)
    requires RecordsTell(infos, bound)
    ensures RecordsTell(FillAll(infos, filled), bound) == true
    ensures Grows(DoneOf(infos, a), DoneOf(FillAll(infos, filled), a)) == true
    decreases |filled|
  {
    if filled != [] {
      var mid := FillOne(infos, filled[0]);
      FillOneGrows(infos, filled[0], bound, a);
      FillAllGrows(mid, filled[1..], bound, a);
      GrowsTrans(DoneOf(infos, a), DoneOf(mid, a), DoneOf(FillAll(infos, filled), a));
    }
  }

  lemma {:induction false} MakersGrow(infos: Infos, r: Report, bound: nat, a: Account)
    requires RecordsTell(infos, bound)
    ensures RecordsTell(MakerChanges(infos, r), bound) == true
    ensures Grows(DoneOf(infos, a), DoneOf(MakerChanges(infos, r), a)) == true
  {
    FillAllGrows(infos, r.filled, bound, a);
    if r.residual != None {
      var mid, x := FillAll(infos, r.filled), r.residual.value;
      var open := OpenOf(mid, x.account);
      var i := IndexOf(open, x.id);
      if i < |open| && x.filled + x.selfFill <= Remaining(open[i]) {
        assert OpenTells(open, bound);
        EditTells(mid, x.account, i, Booked(open[i], x), bound);
      }
    }
  }

  /** The order that was just issued is the one its id finds. */
  lemma {:induction false} IssuedIsLast(open: seq<LimitOrder>, o: LimitOrder)
    requires forall i :: 0 <= i < |open| ==> open[i].id < o.id
    ensures IndexOf(open + [o], o.id) == |open|
  {
    var all := open + [o];
    assert all[|open|] == o;
    assert forall i :: 0 <= i < |open| ==> all[i] == open[i];
  }

  lemma {:induction false} PushTells(infos: Infos, o: LimitOrder)
    requires RecordsTell(infos, o.id) && o.status == Open
    ensures RecordsTell(PushOpen(infos, o), o.id + 1) == true
    ensures HasOpen(PushOpen(infos, o), o.account, o.id)
    ensures var open := OpenOf(PushOpen(infos, o), o.account); open[IndexOf(open, o.id)] == o
  {
    assert OpenTells(OpenOf(infos, o.account), o.id);
    IssuedIsLast(OpenOf(infos, o.account), o);
    forall b ensures OpenTells(OpenOf(PushOpen(infos, o), b), o.id + 1) {
      assert OpenTells(OpenOf(infos, b), o.id);
    }
  }

  // ---------- the completed records of one transaction ----------

  /** The record of a limit order that was filled on arrival. */
  function ArrivalRecord(o: LimitOrder): CompletedOrder { CompletedLimit(o.(status := Filled)) }

  /** What a limit order adds to the completed orders before its makers are booked. */
  function FirstDone(o: LimitOrder, out: Outcome, a: Account): seq<CompletedOrder> {
    if out.Executed? && out.report.tally.lots >= o.base && a == o.account then [ArrivalRecord(o)] else []
  }

  lemma {:induction false} TakerGrows(infos: Infos, o: LimitOrder, lots: nat, a: Account)
    requires RecordsTell(infos, o.id) && o.status == Open && o.filled == 0 && o.selfFilled == 0
    ensures HasOpen(PushOpen(infos, o), o.account, o.id)
    ensures var mid := LimitChange(PushOpen(infos, o), o.account, o.id, lots);
      && RecordsTell(mid, o.id + 1) == true
      && DoneOf(mid, a) == DoneOf(infos, a) + if lots >= o.base && a == o.account then [ArrivalRecord(o)] else []
  {
    PushTells(infos, o);
    var pushed := PushOpen(infos, o);
    if lots < o.base {
      EditTells(pushed, o.account, IndexOf(OpenOf(pushed, o.account), o.id),
                o.(status := PartiallyFilled, filled := o.filled + lots), o.id + 1);
    } else {
      CompleteTells(pushed, o.account, o.id, o.(status := Filled), o.id + 1);
    }
  }

  lemma {:induction false} LimitGrows(infos: Infos, o: LimitOrder, out: Outcome, a: Account)
    requires RecordsTell(infos, o.id) && o.status == Open && o.filled == 0 && o.selfFilled == 0
    ensures var after := AfterLimit(PushOpen(infos, o), o, out);
      RecordsTell(after, o.id + 1) == true && Grows(DoneOf(infos, a) + FirstDone(o, out, a), DoneOf(after, a)) == true
  {
    PushTells(infos, o);
    if out.Executed? {
      TakerGrows(infos, o, out.report.tally.lots, a);
      MakersGrow(LimitChange(PushOpen(infos, o), o.account, o.id, out.report.tally.lots), out.report, o.id + 1, a);
    } else {
      assert DoneOf(infos, a) + [] == DoneOf(infos, a);
    }
  }

  lemma {:induction false} MarketGrows(
      infos: Infos, id: nat, dir: Direction, size: nat, sender: Account, out: Outcome, bound: nat, a: Account)
    requires RecordsTell(infos, bound)
    ensures var after := AfterMarket(infos, id, dir, size, sender, out);
      RecordsTell(after, bound) == true && Grows(DoneOf(infos, a), DoneOf(after, a)) == true
  {
    if out.Executed? {
      var next := PushCompleted(infos, sender, MarketRecord(id, dir, size, out.report.tally));
      SameTells(infos, next, bound, bound);
      MakersGrow(next, out.report, bound, a);
      GrowsTrans(DoneOf(infos, a), DoneOf(next, a), DoneOf(MakerChanges(next, out.report), a));
    }
  }

  /** The transaction is a limit order of positive size that is filled whole on arrival. */
  ghost predicate FilledOnArrival(s: LedgerState, tx: Tx, d: Detail) {
    && Reaches(s, tx) && tx.OrderTx? && tx.kind.LimitKind? && tx.kind.size > 0
    && d.Traded? && d.out.Executed? && d.out.report.tally.lots >= tx.kind.size
  }

  /** The records a transaction adds: first that of its own order if it was filled on arrival,
      which is stale, then others, none of them stale. */
  ghost predicate DoneStep(s: LedgerState, tx: Tx, s': LedgerState, d: Detail, a: Account) {
    && RecordsTell(s'.infos, s'.nextId)
    && if FilledOnArrival(s, tx, d) && a == tx.from
       then Grows(DoneOf(s.infos, a) + [ArrivalRecord(NewLimit(s, tx))], DoneOf(s'.infos, a))
       else Grows(DoneOf(s.infos, a), DoneOf(s'.infos, a))
  }

  /** The accounts and the next id after a limit order: turned away, issued in vain, or placed. */
  ghost predicate LimitEnds(infos: Infos, o: LimitOrder, out: Outcome, a: Account, infos': Infos, bound: nat) {
    || (infos' == infos && bound == o.id)
    || (infos' == PushOpen(infos, o) && bound == o.id + 1)
    || (infos' == Bump(AfterLimit(PushOpen(infos, o), o, out), a) && bound == o.id + 1)
  }

  lemma {:induction false} LimitTxEnds(
      s: LedgerState, tx: Tx, s': LedgerState, res: TxResult, out: Outcome, infos: Infos, o: LimitOrder)
    requires tx.OrderTx? && tx.kind.LimitKind? && LimitTxStep(s, tx, s', res, out)
    requires infos == Ensure(s.infos, tx.from) && o == NewLimit(s, tx)
    ensures LimitEnds(infos, o, out, tx.from, s'.infos, s'.nextId) == true
    ensures Reaches(s, tx) == (res != None)
    ensures res != None ==> s'.infos == Bump(AfterLimit(PushOpen(infos, o), o, out), tx.from) && s'.nextId == o.id + 1
    ensures res == None ==> forall a :: DoneOf(s'.infos, a) == DoneOf(infos, a)
  {
  }

  lemma {:induction false} EndsTell(infos: Infos, o: LimitOrder, out: Outcome, a: Account, infos': Infos, bound: nat)
    requires RecordsTell(infos, o.id) == true && o.status == Open && o.filled == 0 && o.selfFilled == 0
    requires LimitEnds(infos, o, out, a, infos', bound)
    ensures RecordsTell(infos', bound) == true
  {
    PushTells(infos, o);
    LimitGrows(infos, o, out, a);
    SameTells(AfterLimit(PushOpen(infos, o), o, out), Bump(AfterLimit(PushOpen(infos, o), o, out), a), o.id + 1, o.id
        + 1);
  }

  lemma {:induction false} LimitTxDone(
      s: LedgerState, tx: Tx, s': LedgerState, res: TxResult, out: Outcome, infos: Infos, a: Account)
    requires tx.OrderTx? && tx.kind.LimitKind? && LimitTxStep(s, tx, s', res, out) == true
    requires infos == Ensure(s.infos, tx.from) && RecordsTell(infos, s.nextId) == true
    ensures DoneStep(s, tx, s', Traded(out), a) == true
  {
    var o := NewLimit(s, tx);
    LimitTxEnds(s, tx, s', res, out, infos, o);
    EndsTell(infos, o, out, tx.from, s'.infos, s'.nextId);
    LimitGrows(infos, o, out, a);
    ArrivalOrNot(s, tx, out, a, o, DoneOf(s.infos, a), DoneOf(s'.infos, a));
  }

  /** An order without a size is complete at once; its record is not stale. */
  lemma {:induction false} ArrivalOrNot(s: LedgerState, tx: Tx, out: Outcome, a: Account, o: LimitOrder,
      done: seq<CompletedOrder>, done': seq<CompletedOrder>)
    requires tx.OrderTx? && tx.kind.LimitKind? && o == NewLimit(s, tx)
    requires if Reaches(s, tx) then Grows(done + FirstDone(o, out, a), done') else done' == done
    ensures if FilledOnArrival(s, tx, Traded(out)) && a == tx.from
      then Grows(done + [ArrivalRecord(o)], done') else Grows(done, done')
  {
    if Reaches(s, tx) && FirstDone(o, out, a) == [] {
      assert done + [] == done;
    }
  }

  lemma {:induction false} MarketTxDone(
      s: LedgerState, tx: Tx, s': LedgerState, res: TxResult, out: Outcome, infos: Infos, a: Account)
    requires tx.OrderTx? && tx.kind.MarketKind? && MarketTxStep(s, tx, s', res, out) == true
    requires infos == Ensure(s.infos, tx.from) && RecordsTell(infos, s.nextId) == true
    ensures DoneStep(s, tx, s', Traded(out), a) == true
  {
    MarketGrows(infos, s.nextId, tx.dir, tx.kind.size, tx.from, out, s.nextId, a);
    var after := if res == None then infos else AfterMarket(infos, s.nextId, tx.dir, tx.kind.size, tx.from, out);
    SameTells(after, s'.infos, s.nextId, s'.nextId);
  }

  lemma {:induction false} CancelTxDone(
      s: LedgerState, tx: Tx, s': LedgerState, res: TxResult, ok: bool, unfilled: nat, a: Account)
    requires tx.CancelTx? && CancelTxStep(s, tx, s', res, ok, unfilled) == true
      && RecordsTell(s.infos, s.nextId) == true
    ensures DoneStep(s, tx, s', Revoked(ok, unfilled), a) == true
  {
    if res != None {
      assert OpenTells(OpenOf(s.infos, tx.from), s.nextId);
      var o := Named(s, tx);
      CompleteTells(s.infos, tx.from, tx.orderId, o, s.nextId);
      SameTells(if ok then Complete(s.infos, tx.from, tx.orderId, o) else s.infos, s'.infos, s.nextId, s.nextId);
    }
  }

  lemma {:induction false} TransferDone(s: LedgerState, tx: Tx, s': LedgerState, res: TxResult, d: Detail, a: Account)
    requires tx.TransferTx? && TransferStep(s, tx, s', res) && RecordsTell(s.infos, s.nextId) == true
    ensures DoneStep(s, tx, s', d, a) == true
  {
    SameTells(s.infos, s'.infos, s.nextId, s'.nextId);
  }

  lemma {:induction false} TxDone(s: LedgerState, tx: Tx, s': LedgerState, res: TxResult, d: Detail, a: Account)
    requires RecordsTell(s.infos, s.nextId) == true && TxStep(s, tx, s', res, d)
    ensures DoneStep(s, tx, s', d, a) == true
  {
    var infos := Ensure(s.infos, tx.from);
    SameTells(s.infos, infos, s.nextId, s.nextId);
    match tx
    case TransferTx(_, _, _, _, _) => TransferDone(s, tx, s', res, d, a);
    case OrderTx(_, _, _, LimitKind(_, _), _) => LimitTxDone(s, tx, s', res, d.out, infos, a);
    case OrderTx(_, _, _, MarketKind(_), _) => MarketTxDone(s, tx, s', res, d.out, infos, a);
    case CancelTx(_, _, _, _) => CancelTxDone(s, tx, s', res, d.ok, d.unfilled, a);
  }

  /** A limit order with a size that is filled whole on arrival is on record as filled, but with
      counters that say that all of it remains. */
  lemma {:induction false} ArrivalRecordIsStale(s: LedgerState, tx: Tx, s': LedgerState, res: TxResult, d: Detail)
    requires RecordsTell(s.infos, s.nextId) == true && TxStep(s, tx, s', res, d) == true && FilledOnArrival(s, tx, d)
    ensures var c := ArrivalRecord(NewLimit(s, tx));
      c in DoneOf(s'.infos, tx.from) && Stale(c) && Remaining(c.o) == tx.kind.size
  {
    TxDone(s, tx, s', res, d, tx.from);
    var done := DoneOf(s.infos, tx.from);
    assert DoneOf(s'.infos, tx.from)[|done|] == ArrivalRecord(NewLimit(s, tx));
  }

  // ---------- stale records over runs ----------

  /** Step `i` placed order `n` of account `a`, which was filled whole on arrival. */
  ghost predicate ArrivedWhole(ss: seq<LedgerState>, txs: seq<Tx>, ds: seq<Detail>, i: nat, a: Account, n: nat)
    requires |ss| == |txs| + 1 && |ds| == |txs|
  {
    PlacedAt(ss, txs, ds, i, a, n) && FilledOnArrival(ss[i], txs[i], ds[i])
  }

  /** The completed orders of consecutive states. */
  ghost predicate DoneSteps(ss: seq<LedgerState>, txs: seq<Tx>, ds: seq<Detail>, a: Account) {
    && |ss| == |txs| + 1 && |ds| == |txs|
    && forall i {:trigger txs[i]} :: 0 <= i < |txs| ==> DoneStep(ss[i], txs[i], ss[i + 1], ds[i], a)
  }

  lemma {:induction false} RunTells(
      ss: seq<LedgerState>, txs: seq<Tx>, results: seq<TxResult>, ds: seq<Detail>, k: nat)
    requires LedgerRun(ss, txs, results, ds) && k <= |txs| && RecordsTell(ss[0].infos, ss[0].nextId)
    ensures RecordsTell(ss[k].infos, ss[k].nextId) == true
  {
    if k > 0 {
      RunTells(ss, txs, results, ds, k - 1);
      assert TxStep(ss[k - 1], txs[k - 1], ss[k], results[k - 1], ds[k - 1]);
      TxDone(ss[k - 1], txs[k - 1], ss[k], results[k - 1], ds[k - 1], 0);
    }
  }

  lemma {:induction false} RunDone(
      ss: seq<LedgerState>, txs: seq<Tx>, results: seq<TxResult>, ds: seq<Detail>, a: Account)
    requires LedgerRun(ss, txs, results, ds) && RecordsTell(ss[0].infos, ss[0].nextId)
    ensures DoneSteps(ss, txs, ds, a) == true
  {
    forall i | 0 <= i < |txs| ensures DoneStep(ss[i], txs[i], ss[i + 1], ds[i], a) {
      RunTells(ss, txs, results, ds, i);
      TxDone(ss[i], txs[i], ss[i + 1], results[i], ds[i], a);
    }
  }

  /** A stale record was left by the step that filled its order on arrival. */
  lemma {:induction false} StaleHasStep(
      ss: seq<LedgerState>, txs: seq<Tx>, ds: seq<Detail>, k: nat, a: Account, j: nat) returns (i: nat)
    requires DoneSteps(ss, txs, ds, a) && k <= |txs| && DoneOf(ss[0].infos, a) == []
    requires j < |DoneOf(ss[k].infos, a)| && Stale(DoneOf(ss[k].infos, a)[j])
    ensures i < k && ArrivedWhole(ss, txs, ds, i, a, RecordId(DoneOf(ss[k].infos, a)[j]))
  {
    assert DoneStep(ss[k - 1], txs[k - 1], ss[k], ds[k - 1], a);
    if j < |DoneOf(ss[k - 1].infos, a)| {
      i := StaleHasStep(ss, txs, ds, k - 1, a, j);
    } else {
      i := k - 1;
    }
  }

  /** Such a step leaves a stale record, which stays. */
  lemma {:induction false} StepLeavesRecord(
      ss: seq<LedgerState>, txs: seq<Tx>, ds: seq<Detail>, k: nat, a: Account, n: nat, i: nat) returns (j: nat)
    requires DoneSteps(ss, txs, ds, a) && i < k <= |txs| && ArrivedWhole(ss, txs, ds, i, a, n)
    ensures j < |DoneOf(ss[k].infos, a)| && DoneOf(ss[k].infos, a)[j] == ArrivalRecord(NewLimit(ss[i], txs[i]))
    decreases k
  {
    assert DoneStep(ss[k - 1], txs[k - 1], ss[k], ds[k - 1], a);
    if i == k - 1 {
      j := |DoneOf(ss[i].infos, a)|;
    } else {
      j := StepLeavesRecord(ss, txs, ds, k - 1, a, n, i);
    }
  }

  lemma {:induction false} DoneTwice(done: seq<CompletedOrder>, i: nat, j: nat, n: nat)
    requires i <= j < |done| && RecordId(done[i]) == RecordId(done[j]) == n
    ensures DoneTimes(done, n) >= if i < j then 2 else 1
    decreases |done|
  {
    if j < |done| - 1 {
      DoneTwice(done[..|done| - 1], i, j, n);
    } else if i < j {
      DoneTwice(done[..|done| - 1], i, i, n);
    }
  }

  /** No order is on record when the run starts. */
  ghost predicate Blank(infos: Infos) { forall a :: OpenOf(infos, a) == [] && DoneOf(infos, a) == [] }

  /** In every state of every run from blank records, a record that is marked filled has
      something remaining exactly if its order had a size and was filled whole on arrival; it is
      then the order as it came. */
  lemma {:induction false} FilledRecordIff(
      ss: seq<LedgerState>, txs: seq<Tx>, results: seq<TxResult>, ds: seq<Detail>, k: nat, a: Account, c: LimitOrder)
    requires LedgerRun(ss, txs, results, ds) == true && |ss| == |txs| + 1 && |ds| == |txs| && k <= |txs|
    requires Blank(ss[0].infos) && CompletedLimit(c) in DoneOf(ss[k].infos, a) && c.status == Filled
    ensures Remaining(c) > 0 <==> exists i: nat :: i < k && ArrivedWhole(ss, txs, ds, i, a, c.id)
    ensures forall i: nat :: i < k && ArrivedWhole(ss, txs, ds, i, a, c.id) ==>
      c == NewLimit(ss[i], txs[i]).(status := Filled)
  {
    BlankTells(ss[0]);
    RunDone(ss, txs, results, ds, a);
    var done := DoneOf(ss[k].infos, a);
    var j :| 0 <= j < |done| && done[j] == CompletedLimit(c);
    if Remaining(c) > 0 {
      var i := StaleHasStep(ss, txs, ds, k, a, j);
    }
    forall i: nat | i < k && ArrivedWhole(ss, txs, ds, i, a, c.id)
      ensures c == NewLimit(ss[i], txs[i]).(status := Filled) && Remaining(c) > 0
    {
      var l := StepLeavesRecord(ss, txs, ds, k, a, c.id, i);
      OneRecord(ss, txs, results, ds, k, a, j, l);
    }
  }

  lemma {:induction false} BlankTells(s: LedgerState)
    requires Blank(s.infos)
    ensures RecordsTell(s.infos, s.nextId) == true && forall a, n :: Recorded(s.infos, a, n) == 0
  {
    forall a, n ensures Recorded(s.infos, a, n) == 0 {
      assert OpenOf(s.infos, a) == [] && DoneOf(s.infos, a) == [];
    }
  }

  /** Two completed records with one id are one record. */
  lemma {:induction false} OneRecord(
      ss: seq<LedgerState>, txs: seq<Tx>, results: seq<TxResult>, ds: seq<Detail>, k: nat, a: Account, j: nat, l: nat)
    requires LedgerRun(ss, txs, results, ds) == true && |ss| == |txs| + 1 && |ds| == |txs| && k <= |txs|
    requires Blank(ss[0].infos)
    requires var done := DoneOf(ss[k].infos, a);
      j < |done| && l < |done| && RecordId(done[j]) == RecordId(done[l])
    ensures j == l
  {
    var done := DoneOf(ss[k].infos, a);
    var n := RecordId(done[j]);
    BlankTells(ss[0]);
    RecordedOnce(ss, txs, results, ds, k, a, n);
    DoneTwice(done, if j < l then j else l, if j < l then l else j, n);
  }

  // ---------- when an order is filled on arrival ----------

  /** Known before the call: the order is funded and what it can match reaches its size. */
  ghost predicate WillFillOnArrival(s: LedgerState, tx: Tx) {
    && Reaches(s, tx) && tx.OrderTx? && tx.kind.LimitKind? && Funded(s.house, NewLimit(s, tx))
    && Crosses(s.house.markets[tx.market], tx.dir, tx.kind.price)
    && AllLots(TargetFills(s.house.markets[tx.market], NewLimit(s, tx))) >= tx.kind.size
  }

  lemma {:induction false} ArrivalIff(s: LedgerState, tx: Tx, s': LedgerState, res: TxResult, out: Outcome)
    requires tx.OrderTx? && tx.kind.LimitKind? && LegalTx(s, tx) && LimitTxStep(s, tx, s', res, out)
    ensures FilledOnArrival(s, tx, Traded(out)) <==> WillFillOnArrival(s, tx)
  {
    if Reaches(s, tx) {
      var mk, o := s.house.markets[tx.market], NewLimit(s, tx);
      var opp := Opposite(o.dir);
      GreedyOrders(TakeAcceptable(opp, Flatten(Side(mk, opp)), o.price), o.base, None);
      NoOwnLots(TargetFills(mk, o), mk.prec);
      ArrivalStep(s.house, o, s'.house, out);
    }
  }

  lemma {:induction false} ArrivalStep(h: House, o: LimitOrder, h': House, out: Outcome)
    requires o.filled == 0 && o.selfFilled == 0 && o.market < |h.markets| && LimitStep(h, o, h', out)
    ensures out.Executed? <==> Funded(h, o) && Crosses(h.markets[o.market], o.dir, o.price)
    ensures out.Executed? ==> out.report.tally.lots == Lots(TargetFills(h.markets[o.market], o), false)
  {
  }

  /** So over legal transactions it can be told beforehand which records will be stale. */
  lemma {:induction false} LegalRecordIff(
      ss: seq<LedgerState>, txs: seq<Tx>, results: seq<TxResult>, ds: seq<Detail>, k: nat, a: Account, c: LimitOrder)
    requires LedgerRun(ss, txs, results, ds) == true && |ss| == |txs| + 1 && |ds| == |txs| && k <= |txs|
    requires forall i {:trigger txs[i]} :: 0 <= i < |txs| ==> LegalTx(ss[i], txs[i])
    requires Blank(ss[0].infos) && CompletedLimit(c) in DoneOf(ss[k].infos, a) && c.status == Filled
    ensures Remaining(c) > 0 <==>
      exists i: nat :: i < k && PlacedAt(ss, txs, ds, i, a, c.id) && WillFillOnArrival(ss[i], txs[i])
  {
    FilledRecordIff(ss, txs, results, ds, k, a, c);
    forall i: nat | i < k
      ensures ArrivedWhole(ss, txs, ds, i, a, c.id)
         <==> PlacedAt(ss, txs, ds, i, a, c.id) && WillFillOnArrival(ss[i], txs[i])
    {
      assert LegalTx(ss[i], txs[i]) && TxStep(ss[i], txs[i], ss[i + 1], results[i], ds[i]);
      if txs[i].OrderTx? && txs[i].kind.LimitKind? {
        ArrivalIff(ss[i], txs[i], ss[i + 1], results[i], ds[i].out);
      }
    }
  }
}
