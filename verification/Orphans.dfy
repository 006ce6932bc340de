/** Which open copies have no live order in any book. */
module Orphans {
  import opened Orders
  import opened BookEdits
  import opened Sweeps
  import opened Matching
  import opened SpotMarkets
  import opened ClearingHouse
  import opened Solvency
  import opened AccountOrders
  import opened Ledger
  import opened LedgerMirror
  import opened LedgerSteps
  import opened LedgerRuns
  import opened Records

  // ---------- how often an id is open ----------

  function Copies(infos: Infos, a: Account, n: nat): nat { OpenTimes(OpenOf(infos, a), n) }

  lemma {:induction false} NoneOpen(open: seq<LimitOrder>, n: nat)
    ensures OpenTimes(open, n) == 0 <==> forall i :: 0 <= i < |open| ==> open[i].id != n
  {
    if open != [] {
      NoneOpen(open[1..], n);
      assert forall i :: 0 <= i < |open[1..]| ==> open[1..][i] == open[i + 1];
    }
  }

  /** In a tidy list an id is open at most once. */
  lemma {:induction false} OpenOnce(open: seq<LimitOrder>, n: nat)
    requires Ascending(open)
    ensures OpenTimes(open, n) <= 1
  {
    if open != [] {
      OpenOnce(open[1..], n);
      if open[0].id == n {
        NoneOpen(open[1..], n);
        assert forall i :: 0 <= i < |open[1..]| ==> open[1..][i] == open[i + 1];
      }
    }
  }

  /** Completing a maker takes one copy of it away, if there is one, and no other. */
  lemma {:induction false} FillOneCopies(infos: Infos, f: LimitOrder, a: Account, n: nat)
    ensures Copies(FillOne(infos, f), a, n)
         == Copies(infos, a, n) - if a == f.account && n == f.id && Copies(infos, a, n) > 0 then 1 else 0
  {
    var open := OpenOf(infos, f.account);
    var i := IndexOf(open, f.id);
    NoneOpen(open, f.id);
    if i < |open| {
      OpenTimesAt(open, i, open[i], n);
    }
  }

  lemma {:induction false} FillAllCopies(infos: Infos, filled: seq<LimitOrder>, a: Account, n: nat)
    ensures Copies(FillAll(infos, filled), a, n) <= Copies(infos, a, n)
    ensures Copies(infos, a, n) <= 1 && (exists f :: f in filled && f.account == a && f.id == n) ==>
      Copies(FillAll(infos, filled), a, n) == 0
    decreases |filled|
  {
    if filled != [] {
      FillOneCopies(infos, filled[0], a, n);
      FillAllCopies(FillOne(infos, filled[0]), filled[1..], a, n);
      if exists f :: f in filled && f.account == a && f.id == n {
        var f :| f in filled && f.account == a && f.id == n;
        assert f == filled[0] || f in filled[1..];
      }
    }
  }

  lemma {:induction false} MakerCopies(infos: Infos, r: Report, a: Account, n: nat)
    ensures Copies(MakerChanges(infos, r), a, n) == Copies(FillAll(infos, r.filled), a, n)
  {
    if r.residual != None {
      var mid, x := FillAll(infos, r.filled), r.residual.value;
      var open := OpenOf(mid, x.account);
      var i := IndexOf(open, x.id);
      if i < |open| && x.filled + x.selfFill <= Remaining(open[i]) {
        OpenTimesAt(open, i, Booked(open[i], x), n);
      }
    }
  }

  // ---------- ids in the books ----------

  ghost predicate IdIn(list: seq<LimitOrder>, n: nat) { exists i :: 0 <= i < |list| && list[i].id == n }

  ghost predicate IdAt(h: House, k: nat, dir: Direction, n: nat) {
    k < |h.markets| && IdIn(Flatten(Side(h.markets[k], dir)), n)
  }

  ghost predicate InBook(h: House, n: nat) { exists k: nat, dir :: IdAt(h, k, dir, n) }

  ghost predicate FullIn(fills: seq<Fill>, n: nat) {
    exists i :: 0 <= i < |fills| && Full(fills[i]) && fills[i].order.id == n
  }

  /** A match takes the completely matched orders off the list and no other. */
  lemma {:induction false} LeftoverIds(list: seq<LimitOrder>, fills: seq<Fill>, n: nat)
    requires Matches(list, fills) && !FullIn(fills, n)
    ensures IdIn(Leftover(list, fills), n) <==> IdIn(list, n)
  {
    var rest := Leftover(list, fills);
    if IdIn(list, n) {
      var i :| 0 <= i < |list| && list[i].id == n;
      if i < |fills| {
        assert fills[i].order.id == n && !Full(fills[i]);
        assert i == |fills| - 1;
        assert rest[0] == Touched(fills[i]);
      } else {
        assert rest[|Stub(fills)| + i - |fills|] == list[i];
      }
    }
    if IdIn(rest, n) {
      var j :| 0 <= j < |rest| && rest[j].id == n;
      if j < |Stub(fills)| {
        assert list[|fills| - 1].id == n;
      } else {
        assert rest[j] == list[|fills| + j - |Stub(fills)|];
      }
    }
  }

  lemma {:induction false} EnqueueIds(side: Direction, list: seq<LimitOrder>, o: LimitOrder, n: nat)
    ensures IdIn(Enqueue(side, list, o), n) <==> IdIn(list, n) || n == o.id
  {
    if list != [] && Key(side, o.price) <= Key(side, list[0].price) {
      EnqueueIds(side, list[1..], o, n);
      ConsIds(list[0], Enqueue(side, list[1..], o), n);
      ConsIds(list[0], list[1..], n);
      assert [list[0]] + list[1..] == list;
    } else {
      ConsIds(o, list, n);
    }
  }

  lemma {:induction false} ConsIds(o: LimitOrder, list: seq<LimitOrder>, n: nat)
    ensures IdIn([o] + list, n) <==> o.id == n || IdIn(list, n)
  {
    var all := [o] + list;
    assert all[0] == o && forall i :: 0 <= i < |list| ==> all[i + 1] == list[i];
    if IdIn(list, n) {
      var i :| 0 <= i < |list| && list[i].id == n;
      assert all[i + 1].id == n;
    }
  }

  /** After a cancel the named order is gone, and with a dropped level the others at its price. */
  lemma {:induction false} WithoutIds(list: seq<LimitOrder>, o: LimitOrder, n: nat)
    requires n != o.id
    ensures IdIn(Without(list, o), n) <==> IdIn(list, n)
  {
    if list != [] {
      WithoutIds(list[1..], o, n);
      ConsIds(list[0], list[1..], n);
      assert [list[0]] + list[1..] == list;
      if !SameSlot(list[0], o) {
        ConsIds(list[0], Without(list[1..], o), n);
      }
    }
  }

  ghost predicate IdAtPrice(list: seq<LimitOrder>, n: nat, price: nat) {
    exists i :: 0 <= i < |list| && list[i].id == n && list[i].price == price
  }

  lemma {:induction false} OtherPriceIds(list: seq<LimitOrder>, price: nat, n: nat)
    ensures IdIn(AtOtherPrices(list, price), n) ==>
      exists i :: 0 <= i < |list| && list[i].id == n && list[i].price != price
    ensures IdIn(list, n) && !IdAtPrice(list, n, price) ==> IdIn(AtOtherPrices(list, price), n)
  {
    if list != [] {
      var tail := list[1..];
      OtherPriceIds(tail, price, n);
      ConsIds(list[0], tail, n);
      assert [list[0]] + tail == list;
      assert forall i :: 0 <= i < |tail| ==> tail[i] == list[i + 1];
      if list[0].price != price {
        ConsIds(list[0], AtOtherPrices(tail, price), n);
      } else {
        assert AtOtherPrices(list, price) == [] + AtOtherPrices(tail, price) == AtOtherPrices(tail, price);
      }
      if IdAtPrice(tail, n, price) {
        var i :| 0 <= i < |tail| && tail[i].id == n && tail[i].price == price;
        assert list[i + 1].id == n && list[i + 1].price == price;
      }
    }
  }

  /** Cancelling the order takes its whole level. */
  ghost predicate LevelGoes(list: seq<LimitOrder>, o: LimitOrder) {
    exists x :: x in list && SameSlot(x, o) && x.selfFilled == Volume(Peers(list, o))
  }

  lemma {:induction false} WithdrawnIds(side: Direction, levels: seq<Level>, o: LimitOrder, levels': seq<Level>, n: nat)
    requires BookOk(side, levels) == true && CurrentCopy(Flatten(levels), o) == true && Withdrawn(levels, o, levels')
    requires DistinctIds(Flatten(levels)) && n != o.id
    ensures var list := Flatten(levels);
      IdIn(Flatten(levels'), n) <==> IdIn(list, n) && !(LevelGoes(list, o) && IdAtPrice(list, n, o.price))
  {
    var m, k :| WithdrawnAt(levels, o, m, k, levels');
    var list, x := Flatten(levels), levels[m].orders[k];
    CancelledList(side, levels, m, k, o, levels');
    ListedAt(side, levels, m, o);
    OneSlot(side, levels, o, x);
    assert LevelGoes(list, o) <==> Volume(Peers(list, o)) == x.selfFilled;
    WithoutIds(list, o, n);
    OtherPriceIds(list, o.price, n);
  }

  // ---------- what a transaction does to the books ----------

  lemma {:induction false} SameBook(h: House, h': House, n: nat)
    requires forall k: nat, dir :: IdAt(h', k, dir, n) <==> IdAt(h, k, dir, n)
    ensures InBook(h', n) <==> InBook(h, n)
  {
  }

  /** A match on the other side, with or without a remainder that rests, moves no other id. */
  lemma {:induction false} MatchIds(h: House, h': House, k: nat, side: Direction, fills: seq<Fill>, n: nat)
    requires k < |h.markets| == |h'.markets| && h'.markets == h.markets[k := h'.markets[k]]
    requires Matches(Flatten(Side(h.markets[k], side)), fills) && !FullIn(fills, n)
    requires TakenOff(side, Side(h.markets[k], side), fills, Side(h'.markets[k], side))
    requires IdIn(Flatten(Side(h'.markets[k], Opposite(side))), n)
      <==> IdIn(Flatten(Side(h.markets[k], Opposite(side))), n)
    ensures InBook(h', n) <==> InBook(h, n)
  {
    LeftoverIds(Flatten(Side(h.markets[k], side)), fills, n);
    forall k': nat, dir ensures IdAt(h', k', dir, n) <==> IdAt(h, k', dir, n) {
      assert dir == side || dir == Opposite(side);
    }
    SameBook(h, h', n);
  }

  lemma {:induction false} RestIds(h: House, o: LimitOrder, h': House, n: nat)
    requires o.market < |h.markets| == |h'.markets| && h'.markets == h.markets[o.market := h'.markets[o.market]]
    requires Side(h'.markets[o.market], Opposite(o.dir)) == Side(h.markets[o.market], Opposite(o.dir))
    requires Added(o.dir, Side(h.markets[o.market], o.dir), o, Side(h'.markets[o.market], o.dir))
    ensures InBook(h', n) <==> InBook(h, n) || n == o.id
  {
    EnqueueIds(o.dir, Flatten(Side(h.markets[o.market], o.dir)), o, n);
    if n == o.id {
      assert IdAt(h', o.market, o.dir, n);
    } else {
      forall k: nat, dir ensures IdAt(h', k, dir, n) <==> IdAt(h, k, dir, n) {
        assert dir == o.dir || dir == Opposite(o.dir);
      }
      SameBook(h, h', n);
    }
  }

  /** A completely matched maker has no copy left. */
  lemma {:induction false} FilledHasNoCopy(infos: Infos, list: seq<LimitOrder>, fills: seq<Fill>, r: Report, i: nat)
    requires Matches(list, fills) && Live(r.filled) == DoneOrders(fills) && i < |fills| && Full(fills[i])
    requires Copies(infos, list[i].account, list[i].id) <= 1
    ensures Copies(MakerChanges(infos, r), list[i].account, list[i].id) == 0
  {
    var d := Done(fills[i]);
    FullIsDone(fills, i);
    LiveMember(r.filled, d);
    FillAllCopies(infos, r.filled, d.account, d.id);
    MakerCopies(infos, r, d.account, d.id);
  }

  lemma {:induction false} FullIsDone(fills: seq<Fill>, i: nat)
    requires i < |fills| && Full(fills[i])
    ensures Done(fills[i]) in DoneOrders(fills)
  {
    if i > 0 {
      FullIsDone(fills[1..], i - 1);
    }
  }

  lemma {:induction false} LiveMember(orders: seq<LimitOrder>, d: LimitOrder)
    requires d in Live(orders)
    ensures d in orders
  {
    if orders != [] && !(!Dead(orders[0]) && orders[0] == d) {
      LiveMember(orders[1..], d);
    }
  }

  /** The live orders of a side are owned by whoever has their copies open. */
  lemma {:induction false} OwnerOf(s: LedgerState, k: nat, dir: Direction, i: nat, a: Account)
    requires LedgerOk(s) && k < |s.house.markets| && i < |Flatten(Side(s.house.markets[k], dir))|
    requires Copies(s.infos, a, Flatten(Side(s.house.markets[k], dir))[i].id) > 0
    ensures Flatten(Side(s.house.markets[k], dir))[i].account == a
  {
    var x := Flatten(Side(s.house.markets[k], dir))[i];
    assert SideAt(s, k, dir) && Mirrored(s.infos, x);
    MirroredId(s.infos, x);
    NoneOpen(OpenOf(s.infos, a), x.id);
    assert x.id in Ids(OpenOf(s.infos, a));
  }

  lemma {:induction false} AtMostOneCopy(infos: Infos, bound: nat, a: Account, n: nat)
    requires Tidy(infos, bound)
    ensures Copies(infos, a, n) <= 1 && (Copies(infos, a, n) > 0 ==> n < bound)
  {
    assert TidyOpen(OpenOf(infos, a), a, bound);
    OpenOnce(OpenOf(infos, a), n);
    NoneOpen(OpenOf(infos, a), n);
  }

  lemma {:induction false} BookIdIsOld(s: LedgerState, n: nat)
    requires LedgerOk(s) && InBook(s.house, n)
    ensures n < s.nextId
  {
    var k: nat, dir :| IdAt(s.house, k, dir, n);
    assert SideAt(s, k, dir);
    var list := Flatten(Side(s.house.markets[k], dir));
    var i :| 0 <= i < |list| && list[i].id == n;
    MirroredBelow(s.infos, s.nextId, list[i]);
  }

  /** An id is live on one side of one market only. */
  lemma {:induction false} BookIdOnce(s: LedgerState, k: nat, dir: Direction, k': nat, dir': Direction, n: nat)
    requires LedgerOk(s) && IdAt(s.house, k, dir, n) && IdAt(s.house, k', dir', n)
    ensures k == k' && dir == dir'
  {
    assert SideAt(s, k, dir) && SideAt(s, k', dir');
    var list, list' := Flatten(Side(s.house.markets[k], dir)), Flatten(Side(s.house.markets[k'], dir'));
    var i :| 0 <= i < |list| && list[i].id == n;
    var j :| 0 <= j < |list'| && list'[j].id == n;
    OneIdOneOrder(s.infos, s.nextId, list[i], list'[j]);
  }

  // ---------- one transaction ----------

  /** The transaction leaves the open copy of order `n` without a live order: it issues the
      order in vain, or drops it with the level of the order that it cancels. */
  ghost predicate Orphans(s: LedgerState, tx: Tx, n: nat) {
    InVain(s, tx, n) || DropsToo(s, tx, n)
  }

  /** A limit order that passes the nonce and self-cross checks, but has no market or no funds. */
  ghost predicate InVain(s: LedgerState, tx: Tx, n: nat) {
    && tx.OrderTx? && tx.kind.LimitKind? && tx.nonce == NonceOf(s.infos, tx.from) && n == s.nextId
    && !IsSelfCross(OpenOf(s.infos, tx.from), tx.dir, tx.kind.price) && !Funded(s.house, NewLimit(s, tx))
  }

  /** A cancel whose order traded with its owner as much as the others at its price have left. */
  ghost predicate DropsToo(s: LedgerState, tx: Tx, n: nat) {
    && tx.CancelTx? && Reaches(s, tx) && Named(s, tx).market < |s.house.markets|
    && var o := Named(s, tx);
       var list := Flatten(Side(s.house.markets[o.market], o.dir));
       n != o.id && LevelGoes(list, o) && IdAtPrice(list, n, o.price)
  }

  /** What becomes of an order whose copy is open after the transaction. */
  ghost predicate CopyStep(s: LedgerState, tx: Tx, s': LedgerState, a: Account, n: nat) {
    if n < s.nextId
    then Copies(s.infos, a, n) > 0 && (InBook(s'.house, n) <==> InBook(s.house, n) && !Orphans(s, tx, n))
    else n == s.nextId && (InBook(s'.house, n) <==> !Orphans(s, tx, n))
  }

  lemma {:induction false} SameMarketsStep(s: LedgerState, tx: Tx, s': LedgerState, a: Account, n: nat)
    requires LedgerOk(s) == true && s'.house.markets == s.house.markets && !Orphans(s, tx, n)
    requires Copies(s'.infos, a, n) == Copies(s.infos, a, n) > 0
    ensures CopyStep(s, tx, s', a, n) == true
  {
    AtMostOneCopy(s.infos, s.nextId, a, n);
    forall k: nat, dir ensures IdAt(s'.house, k, dir, n) <==> IdAt(s.house, k, dir, n) {
    }
    SameBook(s.house, s'.house, n);
  }

  lemma {:induction false} PushCopies(infos: Infos, o: LimitOrder, a: Account, n: nat)
    ensures Copies(PushOpen(infos, o), a, n) == Copies(infos, a, n) + if a == o.account && n == o.id then 1 else 0
  {
    OpenTimesAppend(OpenOf(infos, o.account), [o], n);
    assert [o][1..] == [];
    assert OpenTimes([o], n) == (if o.id == n then 1 else 0) + OpenTimes([], n);
  }

  /** Issued without a market or funds. */
  lemma {:induction false} VainStep(s: LedgerState, tx: Tx, s': LedgerState, a: Account, n: nat)
    requires LedgerOk(s) == true && tx.OrderTx? && tx.kind.LimitKind? && InVain(s, tx, s.nextId)
    requires s'.house.markets == s.house.markets && Copies(s'.infos, a, n) > 0
    requires Copies(s'.infos, a, n) == Copies(s.infos, a, n) + if a == tx.from && n == s.nextId then 1 else 0
    ensures CopyStep(s, tx, s', a, n) == true
  {
    AtMostOneCopy(s.infos, s.nextId, a, n);
    forall k: nat, dir ensures IdAt(s'.house, k, dir, n) <==> IdAt(s.house, k, dir, n) {
    }
    SameBook(s.house, s'.house, n);
    if n == s.nextId && InBook(s.house, n) {
      BookIdIsOld(s, n);
    }
  }

  /** The order rests. */
  lemma {:induction false} RestStep(s: LedgerState, tx: Tx, s': LedgerState, o: LimitOrder, a: Account, n: nat)
    requires LedgerOk(s) == true && tx.OrderTx? && tx.kind.LimitKind? && o == NewLimit(s, tx) && Funded(s.house, o)
    requires Rested(s.house, o, s'.house) && Copies(s'.infos, a, n) > 0
    requires Copies(s'.infos, a, n) == Copies(s.infos, a, n) + if a == tx.from && n == s.nextId then 1 else 0
    ensures CopyStep(s, tx, s', a, n) == true
  {
    AtMostOneCopy(s.infos, s.nextId, a, n);
    RestIds(s.house, o, s'.house, n);
  }

  /** What a match does to an order that is older and whose copy is still open. */
  lemma {:induction false} MatchKeeps(
      s: LedgerState, s': LedgerState, k: nat, side: Direction, fills: seq<Fill>, r: Report,
      mid: Infos, a: Account, n: nat)
    requires LedgerOk(s) == true && k < |s.house.markets| == |s'.house.markets|
    requires s'.house.markets == s.house.markets[k := s'.house.markets[k]]
    requires Match(side, Side(s.house.markets[k], side), fills, r) == true
    requires TakenOff(side, Side(s.house.markets[k], side), fills, Side(s'.house.markets[k], side)) == true
    requires IdIn(Flatten(Side(s'.house.markets[k], Opposite(side))), n)
        <==> IdIn(Flatten(Side(s.house.markets[k], Opposite(side))), n)
    requires Copies(mid, a, n) == Copies(s.infos, a, n) && Copies(MakerChanges(mid, r), a, n) > 0
    ensures InBook(s'.house, n) <==> InBook(s.house, n)
  {
    AtMostOneCopy(s.infos, s.nextId, a, n);
    FillAllCopies(mid, r.filled, a, n);
    MakerCopies(mid, r, a, n);
    var list := Flatten(Side(s.house.markets[k], side));
    if FullIn(fills, n) {
      var i :| 0 <= i < |fills| && Full(fills[i]) && fills[i].order.id == n;
      assert fills[i].order == list[i];
      OwnerOf(s, k, side, i, a);
      FilledHasNoCopy(mid, list, fills, r, i);
      assert false;
    }
    MatchIds(s.house, s'.house, k, side, fills, n);
  }

  /** The sender's copy after its order matched `lots`. */
  lemma {:induction false} TakerCopies(infos: Infos, o: LimitOrder, lots: nat, a: Account, n: nat)
    requires Tidy(infos, o.id) && o.filled == 0 && o.selfFilled == 0
    ensures HasOpen(PushOpen(infos, o), o.account, o.id)
    ensures Copies(LimitChange(PushOpen(infos, o), o.account, o.id, lots), a, n)
         == Copies(infos, a, n) + if a == o.account && n == o.id && lots < o.base then 1 else 0
  {
    var pushed := PushOpen(infos, o);
    var open := OpenOf(pushed, o.account);
    assert TidyOpen(OpenOf(infos, o.account), o.account, o.id);
    IssuedIsLast(OpenOf(infos, o.account), o);
    PushCopies(infos, o, a, n);
    var i := IndexOf(open, o.id);
    OpenTimesAt(open, i, o.(status := PartiallyFilled, filled := if lots < o.base then lots else 0), n);
  }

  lemma {:induction false} EnsureTidy(infos: Infos, a: Account, bound: nat)
    requires Tidy(infos, bound)
    ensures Tidy(Ensure(infos, a), bound) == true
      && forall b, n :: Copies(Ensure(infos, a), b, n) == Copies(infos, b, n)
  {
    EnsureKept(infos, a, bound);
  }

  /** The own side changes by the remainder at most. */
  lemma {:induction false} OwnSideIds(mk: Market, o: LimitOrder, mk': Market, r: Report, n: nat)
    requires r.tally.lots < o.base && o.selfFilled == 0 ==>
      Added(o.dir, Side(mk, o.dir), o.(filled := r.tally.lots), Side(mk', o.dir)) == true
    requires r.tally.lots >= o.base ==> Side(mk', o.dir) == Side(mk, o.dir)
    requires o.selfFilled == 0
    ensures IdIn(Flatten(Side(mk', o.dir)), n)
       <==> IdIn(Flatten(Side(mk, o.dir)), n) || (n == o.id && r.tally.lots < o.base)
  {
    if r.tally.lots < o.base {
      EnqueueIds(o.dir, Flatten(Side(mk, o.dir)), o.(filled := r.tally.lots), n);
    }
  }

  /** The order matched. */
  lemma {:induction false} TradeStep(
      s: LedgerState, tx: Tx, s': LedgerState, o: LimitOrder, r: Report, mid: Infos, a: Account, n: nat)
    requires LedgerOk(s) == true && tx.OrderTx? && tx.kind.LimitKind? && o == NewLimit(s, tx) && Funded(s.house, o)
    requires o.market < |s.house.markets| == |s'.house.markets|
    requires s'.house.markets == s.house.markets[o.market := s'.house.markets[o.market]]
    requires LimitNext(s.house.markets[o.market], o, s'.house.markets[o.market], Some(r)) == true
    requires Copies(mid, a, n)
      == Copies(s.infos, a, n) + if a == o.account && n == o.id && r.tally.lots < o.base then 1 else 0
    requires Copies(s'.infos, a, n) == Copies(MakerChanges(mid, r), a, n) > 0
    ensures CopyStep(s, tx, s', a, n) == true
  {
    var k, opp, mk, mk' := o.market, Opposite(o.dir), s.house.markets[o.market], s'.house.markets[o.market];
    AtMostOneCopy(s.infos, s.nextId, a, n);
    FillAllCopies(mid, r.filled, a, n);
    MakerCopies(mid, r, a, n);
    assert MarketOk(mk);
    LimitBooks(mk, o, mk', r);
    OppositeTwice(o.dir);
    OwnSideIds(mk, o, mk', r, n);
    if n < s.nextId {
      MatchKeeps(s, s', k, opp, TargetFills(mk, o), r, mid, a, n);
    } else {
      assert IdAt(s'.house, k, o.dir, n);
    }
  }

  lemma {:induction false} LimitCopyStep(
      s: LedgerState, tx: Tx, s': LedgerState, res: TxResult, out: Outcome, a: Account, n: nat)
    requires LedgerOk(s) == true && LegalTx(s, tx) && tx.OrderTx? && tx.kind.LimitKind?
    requires LimitTxStep(s, tx, s', res, out) && Copies(s'.infos, a, n) > 0
    ensures CopyStep(s, tx, s', a, n) == true
  {
    var infos, o := Ensure(s.infos, tx.from), NewLimit(s, tx);
    EnsureTidy(s.infos, tx.from, s.nextId);
    PushCopies(infos, o, a, n);
    if res == None && s'.nextId == s.nextId {
      SameMarketsStep(s, tx, s', a, n);
    } else if res == None || out == Refused {
      VainStep(s, tx, s', a, n);
    } else if out == Resting {
      RestStep(s, tx, s', o, a, n);
    } else {
      TakerCopies(infos, o, out.report.tally.lots, a, n);
      var mid := LimitChange(PushOpen(infos, o), o.account, o.id, out.report.tally.lots);
      TradeStep(s, tx, s', o, out.report, mid, a, n);
    }
  }

  lemma {:induction false} MarketTradeStep(
      s: LedgerState, tx: Tx, s': LedgerState, r: Report, mid: Infos, a: Account, n: nat)
    requires LedgerOk(s) == true && tx.OrderTx? && tx.kind.MarketKind? && tx.market < |s.house.markets|
    requires |s'.house.markets| == |s.house.markets| && (tx.dir == Buy ==> Priced(s.house.markets[tx.market].asks))
    requires s'.house.markets == s.house.markets[tx.market := s'.house.markets[tx.market]]
    requires var mk := s.house.markets[tx.market];
      MarketNext(mk, tx.dir, MarketFills(mk, tx.dir, tx.kind.size, tx.from), s'.house.markets[tx.market], r) == true
    requires Copies(mid, a, n) == Copies(s.infos, a, n)
      && Copies(s'.infos, a, n) == Copies(MakerChanges(mid, r), a, n) > 0
    ensures CopyStep(s, tx, s', a, n) == true
  {
    var k, mk := tx.market, s.house.markets[tx.market];
    AtMostOneCopy(s.infos, s.nextId, a, n);
    FillAllCopies(mid, r.filled, a, n);
    MakerCopies(mid, r, a, n);
    assert MarketOk(mk);
    MarketBooks(mk, tx.dir, tx.kind.size, tx.from, s'.house.markets[k], r);
    OppositeTwice(tx.dir);
    MatchKeeps(s, s', k, Opposite(tx.dir), MarketFills(mk, tx.dir, tx.kind.size, tx.from), r, mid, a, n);
  }

  lemma {:induction false} MarketCopyStep(
      s: LedgerState, tx: Tx, s': LedgerState, res: TxResult, out: Outcome, a: Account, n: nat)
    requires LedgerOk(s) == true && LegalTx(s, tx) && tx.OrderTx? && tx.kind.MarketKind?
    requires MarketTxStep(s, tx, s', res, out) && Copies(s'.infos, a, n) > 0
    ensures CopyStep(s, tx, s', a, n) == true
  {
    var infos := Ensure(s.infos, tx.from);
    if res == None || out == Refused {
      SameMarketsStep(s, tx, s', a, n);
    } else {
      var c := MarketRecord(s.nextId, tx.dir, tx.kind.size, out.report.tally);
      MarketTradeStep(s, tx, s', out.report, PushCompleted(infos, tx.from, c), a, n);
    }
  }

  /** The cancel took effect. */
  lemma {:induction false} CancelledStep(s: LedgerState, tx: Tx, s': LedgerState, unfilled: nat, a: Account, n: nat)
    requires LedgerOk(s) == true && tx.CancelTx? && Reaches(s, tx) && Named(s, tx).market < |s.house.markets|
    requires |s'.house.markets| == |s.house.markets|
    requires var o := Named(s, tx);
      && s'.house.markets == s.house.markets[o.market := s'.house.markets[o.market]]
      && CancelNext(s.house.markets[o.market], o, s'.house.markets[o.market], unfilled) == true
    requires Copies(s.infos, a, n) > 0 && n != Named(s, tx).id
    ensures CopyStep(s, tx, s', a, n) == true
  {
    var o := Named(s, tx);
    var k, mk, mk' := o.market, s.house.markets[o.market], s'.house.markets[o.market];
    var list := Flatten(Side(mk, o.dir));
    AtMostOneCopy(s.infos, s.nextId, a, n);
    CancelCopyIsCurrent(s, tx);
    assert SideAt(s, k, o.dir) && MarketOk(mk);
    ListIdsDistinct(s.infos, s.nextId, o.dir, Side(mk, o.dir), k);
    if Lists(list, o) {
      WithdrawnIds(o.dir, Side(mk, o.dir), o, Side(mk', o.dir), n);
    }
    CancelledBooks(s, s', k, o.dir, n, LevelGoes(list, o) && IdAtPrice(list, n, o.price));
  }

  lemma {:induction false} CancelledBooks(s: LedgerState, s': LedgerState, k: nat, dir: Direction, n: nat, gone: bool)
    requires LedgerOk(s) == true && k < |s.house.markets| == |s'.house.markets|
    requires s'.house.markets == s.house.markets[k := s'.house.markets[k]]
    requires Side(s'.house.markets[k], Opposite(dir)) == Side(s.house.markets[k], Opposite(dir))
    requires IdAt(s'.house, k, dir, n) <==> IdAt(s.house, k, dir, n) && !gone
    requires gone ==> IdAt(s.house, k, dir, n)
    ensures InBook(s'.house, n) <==> InBook(s.house, n) && !gone
  {
    forall k': nat, dir' ensures IdAt(s'.house, k', dir', n) <==> IdAt(s.house, k', dir', n) && !gone {
      assert dir' == dir || dir' == Opposite(dir);
      if gone && IdAt(s.house, k', dir', n) {
        BookIdOnce(s, k, dir, k', dir', n);
      }
    }
  }

  lemma {:induction false} CancelCopyStep(
      s: LedgerState, tx: Tx, s': LedgerState, res: TxResult, ok: bool, unfilled: nat, a: Account, n: nat)
    requires LedgerOk(s) == true && LegalTx(s, tx) && tx.CancelTx? && CancelTxStep(s, tx, s', res, ok, unfilled)
    requires Copies(s'.infos, a, n) > 0
    ensures CopyStep(s, tx, s', a, n) == true
  {
    if res == None || !ok {
      SameMarketsStep(s, tx, s', a, n);
    } else {
      CompletedCopies(s, tx, s', a, n);
      CancelledStep(s, tx, s', unfilled, a, n);
    }
  }

  lemma {:induction false} CompletedCopies(s: LedgerState, tx: Tx, s': LedgerState, a: Account, n: nat)
    requires LedgerOk(s) && tx.CancelTx? && HasOpen(s.infos, tx.from, tx.orderId)
    requires s'.infos == Bump(Complete(s.infos, tx.from, tx.orderId, Named(s, tx)), tx.from)
    requires Copies(s'.infos, a, n) > 0
    ensures Copies(s.infos, a, n) > 0 && n != Named(s, tx).id == tx.orderId
  {
    var open := OpenOf(s.infos, tx.from);
    var i := IndexOf(open, tx.orderId);
    OpenTimesAt(open, i, open[i], n);
    AtMostOneCopy(s.infos, s.nextId, a, n);
    if a != tx.from {
      NoneOpen(OpenOf(s.infos, a), n);
      assert n in Ids(OpenOf(s.infos, a)) && tx.orderId in Ids(open);
    }
  }

  lemma {:induction false} TransferCopyStep(
      s: LedgerState, tx: Tx, s': LedgerState, res: TxResult, a: Account, n: nat)
    requires LedgerOk(s) == true && LegalTx(s, tx) && tx.TransferTx? && TransferStep(s, tx, s', res)
    requires Copies(s'.infos, a, n) > 0
    ensures CopyStep(s, tx, s', a, n) == true
  {
    SameMarketsStep(s, tx, s', a, n);
  }

  /** An order whose copy is open after a transaction is live if it was live or is new, and the
      transaction does not orphan it. */
  lemma {:induction false} TxCopyStep(
      s: LedgerState, tx: Tx, s': LedgerState, res: TxResult, d: Detail, a: Account, n: nat)
    requires LedgerOk(s) == true && LegalTx(s, tx) && TxStep(s, tx, s', res, d) && Copies(s'.infos, a, n) > 0
    ensures CopyStep(s, tx, s', a, n) == true
  {
    match tx
    case TransferTx(_, _, _, _, _) => TransferCopyStep(s, tx, s', res, a, n);
    case OrderTx(_, _, _, LimitKind(_, _), _) => LimitCopyStep(s, tx, s', res, d.out, a, n);
    case OrderTx(_, _, _, MarketKind(_), _) => MarketCopyStep(s, tx, s', res, d.out, a, n);
    case CancelTx(_, _, _, _) => CancelCopyStep(s, tx, s', res, d.ok, d.unfilled, a, n);
  }

  /** Only ids issued so far are orphaned. */
  lemma {:induction false} OrphanIsOld(s: LedgerState, tx: Tx, s': LedgerState, res: TxResult, d: Detail, n: nat)
    requires LedgerOk(s) == true && TxStep(s, tx, s', res, d)
    ensures s.nextId <= s'.nextId && (Orphans(s, tx, n) ==> n < s'.nextId)
  {
    if DropsToo(s, tx, n) {
      var o := Named(s, tx);
      var list := Flatten(Side(s.house.markets[o.market], o.dir));
      var i :| 0 <= i < |list| && list[i].id == n && list[i].price == o.price;
      assert IdIn(list, n);
      assert IdAt(s.house, o.market, o.dir, n);
      BookIdIsOld(s, n);
    }
  }

  // ---------- runs ----------

  ghost predicate OrphanedBefore(ss: seq<LedgerState>, txs: seq<Tx>, k: nat, n: nat)
    requires k <= |txs| < |ss|
  {
    exists i: nat {:trigger txs[i]} :: i < k && Orphans(ss[i], txs[i], n)
  }

  lemma {:induction false} MoreOrphans(ss: seq<LedgerState>, txs: seq<Tx>, k: nat, n: nat)
    requires 0 < k <= |txs| < |ss|
    ensures OrphanedBefore(ss, txs, k, n) <==> OrphanedBefore(ss, txs, k - 1, n) || Orphans(ss[k - 1], txs[k - 1], n)
  {
    if Orphans(ss[k - 1], txs[k - 1], n) {
      assert txs[k - 1] == txs[k - 1];
    }
  }

  lemma {:induction false} OrphansAreOld(
      ss: seq<LedgerState>, txs: seq<Tx>, results: seq<TxResult>, ds: seq<Detail>, k: nat, n: nat)
    requires LedgerRun(ss, txs, results, ds) && LedgerOk(ss[0]) && k <= |txs|
    requires forall i {:trigger txs[i]} :: 0 <= i < |txs| ==> LegalTx(ss[i], txs[i])
    ensures OrphanedBefore(ss, txs, k, n) ==> n < ss[k].nextId
  {
    if k > 0 {
      OrphansAreOld(ss, txs, results, ds, k - 1, n);
      RunKeepsOk(ss, txs, results, ds, k - 1);
      assert TxStep(ss[k - 1], txs[k - 1], ss[k], results[k - 1], ds[k - 1]);
      OrphanIsOld(ss[k - 1], txs[k - 1], ss[k], results[k - 1], ds[k - 1], n);
      MoreOrphans(ss, txs, k, n);
    }
  }

  lemma {:induction false} RunCopyStep(
      ss: seq<LedgerState>, txs: seq<Tx>, results: seq<TxResult>, ds: seq<Detail>, k: nat, a: Account, n: nat)
    requires LedgerRun(ss, txs, results, ds) && LedgerOk(ss[0]) && 0 < k <= |txs| && Copies(ss[k].infos, a, n) > 0
    requires forall i {:trigger txs[i]} :: 0 <= i < |txs| ==> LegalTx(ss[i], txs[i])
    ensures CopyStep(ss[k - 1], txs[k - 1], ss[k], a, n) == true
  {
    RunKeepsOk(ss, txs, results, ds, k - 1);
    assert LegalTx(ss[k - 1], txs[k - 1]) && TxStep(ss[k - 1], txs[k - 1], ss[k], results[k - 1], ds[k - 1]);
    TxCopyStep(ss[k - 1], txs[k - 1], ss[k], results[k - 1], ds[k - 1], a, n);
  }

  /** The converse of the mirror invariant, exactly. In every state of every legal run from a
      ledger without open orders, an open copy has no live order in any book exactly if its
      order was issued without a market or funds, or was dropped with the level of another
      order that was cancelled. */
  lemma {:induction false} OrphanIff(
      ss: seq<LedgerState>, txs: seq<Tx>, results: seq<TxResult>, ds: seq<Detail>, k: nat, a: Account, n: nat)
    requires LedgerRun(ss, txs, results, ds) && LedgerOk(ss[0]) && k <= |txs| && Blank(ss[0].infos)
    requires forall i {:trigger txs[i]} :: 0 <= i < |txs| ==> LegalTx(ss[i], txs[i])
    requires HasOpen(ss[k].infos, a, n)
    ensures InBook(ss[k].house, n) <==> !OrphanedBefore(ss, txs, k, n)
  {
    NoneOpen(OpenOf(ss[k].infos, a), n);
    if k > 0 {
      RunCopyStep(ss, txs, results, ds, k, a, n);
      MoreOrphans(ss, txs, k, n);
      if n < ss[k - 1].nextId {
        NoneOpen(OpenOf(ss[k - 1].infos, a), n);
        OrphanIff(ss, txs, results, ds, k - 1, a, n);
      } else {
        OrphansAreOld(ss, txs, results, ds, k - 1, n);
      }
    }
  }
}
