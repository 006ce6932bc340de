/** Every transaction keeps the ledger in order. */
module LedgerSteps {
  import opened Orders
  import opened BookEdits
  import opened SpotMarkets
  import opened ClearingHouse
  import opened AccountOrders
  import opened Ledger
  import opened LedgerMirror

  // ---------- account updates of one transaction ----------

  /** What a sweep of one side reports. */
  ghost predicate Match(side: Direction, levels: seq<Level>, fills: seq<Fill>, r: Report) {
    && BookOk(side, levels) && Matches(Flatten(levels), fills)
    && Live(r.filled) == DoneOrders(fills) && r.residual == ResidualOf(fills)
    && forall o :: o in r.filled && Dead(o) ==> HasDead(levels, o.id)
  }

  lemma {:induction false} BumpMoved(infos: Infos, a: Account, since: nat, bound: nat, bound': nat)
    requires Tidy(infos, bound) == true && bound <= bound'
    ensures Moved(infos, Bump(infos, a), since, bound', {}) == true
  {
    SameOpenMoved(infos, Bump(infos, a), since, bound, bound');
  }

  lemma {:induction false} EnsureMoved(infos: Infos, a: Account, since: nat, bound: nat)
    requires Tidy(infos, bound) == true
    ensures Moved(infos, Ensure(infos, a), since, bound, {}) == true
  {
    SameOpenMoved(infos, Ensure(infos, a), since, bound, bound);
  }

  lemma {:induction false} CopiesMoved(
      infos: Infos, infos': Infos, since: nat, bound: nat, list: seq<LimitOrder>, fills: seq<Fill>)
    requires |fills| <= |list| && CopiesFollow(infos, list, fills) == true
      && Moved(infos, infos', since, bound, {}) == true
    ensures CopiesFollow(infos', list, fills) == true
  {
  }

  /** Issuing an order creates the account if need be and opens the order. */
  lemma {:induction false} IssueMoved(infos: Infos, o: LimitOrder)
    requires Tidy(infos, o.id) == true
    ensures var next := PushOpen(Ensure(infos, o.account), o);
      Moved(infos, next, o.id, o.id + 1, {}) == true && Mirrored(next, o)
  {
    var i1 := Ensure(infos, o.account);
    EnsureMoved(infos, o.account, o.id, o.id);
    PushMoved(i1, o, o.id);
    var none: set<nat> := {};
    MovedTrans(infos, i1, PushOpen(i1, o), o.id, o.id, o.id + 1, none, none);
    assert none + none == none;
  }

  lemma {:induction false} MatchedBelong(
      infos: Infos, since: nat, list: seq<LimitOrder>, n: nat, k: nat, dir: Direction)
    requires n <= |list| && AllMirrored(infos, list, dir, k) == true
    ensures Belongs(infos, since, MatchedIds(list, n), k, dir) == true
    ensures Belongs(infos, since, {since} + MatchedIds(list, n), k, dir) == true
  {
    forall id | id in MatchedIds(list, n) ensures OwnedBy(infos, id, k, dir) {
      var i :| 0 <= i < n && list[i].id == id;
      assert Mirrored(infos, list[i]);
    }
  }

  /** The lookups for a limit order that matched succeed: the new order's copy and the partly
      matched maker's are open when their turn comes. */
  lemma {:induction false} LimitLookups(infos: Infos, o: LimitOrder, levels: seq<Level>, fills: seq<Fill>, r: Report)
    requires Tidy(infos, o.id) == true && o.filled == 0 && o.selfFilled == 0
    requires SideMirror(infos, o.id, Opposite(o.dir), levels, o.market) == true
      && Match(Opposite(o.dir), levels, fills, r) == true
    ensures var issued := PushOpen(Ensure(infos, o.account), o);
      HasOpen(issued, o.account, o.id) && ResidualFound(LimitChange(issued, o.account, o.id, r.tally.lots), r) == true
  {
    LimitStart(infos, o, r.tally.lots);
    LimitMiddle(infos, LimitChange(PushOpen(Ensure(infos, o.account), o), o.account, o.id, r.tally.lots), o, levels,
        fills, r);
  }

  /** The account updates of a limit order that matched, in two stages: its own copy (`i2`)
      and those of the makers (`i3`). */
  lemma {:induction false} LimitPath(infos: Infos, o: LimitOrder, levels: seq<Level>, fills: seq<Fill>, r: Report)
    returns (i2: Infos, i3: Infos)
    requires Tidy(infos, o.id) == true && o.filled == 0 && o.selfFilled == 0
    requires SideMirror(infos, o.id, Opposite(o.dir), levels, o.market) == true
      && Match(Opposite(o.dir), levels, fills, r) == true
    ensures AfterLimit(PushOpen(Ensure(infos, o.account), o), o, Executed(r)) == i3
    ensures Moved(infos, i2, o.id, o.id + 1, {o.id}) == true && |fills| <= |Flatten(levels)|
    ensures r.tally.lots < o.base ==> Mirrored(i2, o.(filled := r.tally.lots)) == true
    ensures Kept(i2, i3, o.id + 1, MatchedIds(Flatten(levels), |fills|)) == true
      && CopiesFollow(i3, Flatten(levels), fills) == true
  {
    var i1 := PushOpen(Ensure(infos, o.account), o);
    LimitStart(infos, o, r.tally.lots);
    i2 := LimitChange(i1, o.account, o.id, r.tally.lots);
    LimitMiddle(infos, i2, o, levels, fills, r);
    i3 := MakerChanges(i2, r);
  }

  lemma {:induction false} LimitMiddle(
      infos: Infos, i2: Infos, o: LimitOrder, levels: seq<Level>, fills: seq<Fill>, r: Report)
    requires Tidy(infos, o.id) == true && Moved(infos, i2, o.id, o.id + 1, {o.id}) == true
    requires SideMirror(infos, o.id, Opposite(o.dir), levels, o.market) == true
      && Match(Opposite(o.dir), levels, fills, r) == true
    ensures ResidualFound(i2, r) == true && |fills| <= |Flatten(levels)|
    ensures AllMirrored(infos, Flatten(levels), Opposite(o.dir), o.market) == true
    ensures Kept(i2, MakerChanges(i2, r), o.id + 1, MatchedIds(Flatten(levels), |fills|)) == true
    ensures CopiesFollow(MakerChanges(i2, r), Flatten(levels), fills) == true
  {
    var opp, since := Opposite(o.dir), o.id;
    UntouchedSide(infos, i2, since, since + 1, {since}, o.market, o.dir, o.market, opp, levels);
    MovedTidy(infos, i2, since, since + 1, {since});
    MakersMirror(i2, since + 1, opp, levels, o.market, fills, r);
  }

  lemma {:induction false} MovedTidy(infos: Infos, infos': Infos, since: nat, bound: nat, gone: set<nat>)
    requires Moved(infos, infos', since, bound, gone) == true
    ensures Tidy(infos', bound) == true
  {
  }

  lemma {:induction false} LimitStart(infos: Infos, o: LimitOrder, lots: nat)
    requires Tidy(infos, o.id) == true && o.filled == 0 && o.selfFilled == 0
    ensures var i1 := PushOpen(Ensure(infos, o.account), o);
      && HasOpen(i1, o.account, o.id)
      && var i2 := LimitChange(i1, o.account, o.id, lots);
         && Moved(infos, i2, o.id, o.id + 1, {o.id}) == true
         && (lots < o.base ==> Mirrored(i2, o.(filled := lots)) == true)
  {
    var i1 := PushOpen(Ensure(infos, o.account), o);
    IssueMoved(infos, o);
    assert Tidy(i1, o.id + 1) == true by {
      MovedTidy(infos, i1, o.id, o.id + 1, {});
    }
    LimitChangeKept(i1, o, lots, o.id + 1);
    MovedKept(infos, i1, LimitChange(i1, o.account, o.id, lots), o.id, o.id + 1, {o.id});
  }

  lemma {:induction false} MovedKept(infos: Infos, i1: Infos, i2: Infos, since: nat, bound: nat, gone: set<nat>)
    requires Moved(infos, i1, since, bound, {}) == true && Kept(i1, i2, bound, gone) == true
    ensures Moved(infos, i2, since, bound, gone) == true
  {
    KeptMoved(i1, i2, since, bound, gone);
    MovedTrans(infos, i1, i2, since, bound, bound, {}, gone);
    assert {} + gone == gone;
  }

  lemma {:induction false} KeptBumped(
      infos: Infos, i2: Infos, i3: Infos, a: Account, since: nat, bound: nat, g: set<nat>, gone: set<nat>)
    requires Moved(infos, i2, since, bound, g) == true && Kept(i2, i3, bound, gone) == true
    ensures Moved(i2, i3, since, bound, gone) == true && Moved(i3, Bump(i3, a), since, bound, {}) == true
    ensures Moved(infos, Bump(i3, a), since, bound, g + gone) == true
  {
    KeptMoved(i2, i3, since, bound, gone);
    MovedTidy(i2, i3, since, bound, gone);
    BumpMoved(i3, a, since, bound, bound);
    MovedTrans(infos, i2, i3, since, bound, bound, g, gone);
    MovedTrans(infos, i3, Bump(i3, a), since, bound, bound, g + gone, {});
    assert g + gone + {} == g + gone;
  }

  lemma {:induction false} LimitEnd(
      infos: Infos, i2: Infos, i3: Infos, a: Account, since: nat, list: seq<LimitOrder>, fills: seq<Fill>)
    requires |fills| <= |list| && Moved(infos, i2, since, since + 1, {since}) == true
    requires Kept(i2, i3, since + 1, MatchedIds(list, |fills|)) == true && CopiesFollow(i3, list, fills) == true
    ensures Moved(infos, Bump(i3, a), since, since + 1, {since} + MatchedIds(list, |fills|)) == true
    ensures CopiesFollow(Bump(i3, a), list, fills) == true
  {
    KeptBumped(infos, i2, i3, a, since, since + 1, {since}, MatchedIds(list, |fills|));
    CopiesMoved(i3, Bump(i3, a), since, since + 1, list, fills);
  }

  /** The copy of the new order survives the makers' updates. */
  lemma {:induction false} NewSurvives(infos: Infos, i2: Infos, i3: Infos, a: Account, list: seq<LimitOrder>, n: nat,
                                       dir: Direction, k: nat, id: nat, x: LimitOrder)
    requires n <= |list| && Tidy(infos, id) == true && AllMirrored(infos, list, dir, k) == true && x.id == id
    requires Kept(i2, i3, id + 1, MatchedIds(list, n)) == true && Mirrored(i2, x) == true
    ensures Mirrored(Bump(i3, a), x) == true
  {
    NewNotMatched(infos, id, list, n, dir, k);
    KeptKeeps(i2, i3, id + 1, MatchedIds(list, n), x);
    assert OpenOf(Bump(i3, a), x.account) == OpenOf(i3, x.account);
  }

  lemma {:induction false} KeptKeeps(i2: Infos, i3: Infos, bound: nat, gone: set<nat>, x: LimitOrder)
    requires Kept(i2, i3, bound, gone) && Mirrored(i2, x) == true && x.id !in gone
    ensures Mirrored(i3, x) == true
  {
  }

  lemma {:induction false} NewNotMatched(
      infos: Infos, since: nat, list: seq<LimitOrder>, n: nat, dir: Direction, k: nat)
    requires n <= |list| && Tidy(infos, since) == true && AllMirrored(infos, list, dir, k) == true
    ensures since !in MatchedIds(list, n)
  {
    forall i | 0 <= i < n ensures list[i].id < since {
      MirroredBelow(infos, since, list[i]);
    }
  }

  /** The account updates of a market order that matched. */
  lemma {:induction false} MarketMoves(infos: Infos, bound: nat, dir: Direction, size: nat, a: Account,
                                       k: nat, levels: seq<Level>, fills: seq<Fill>, r: Report)
    requires Tidy(infos, bound) == true
    requires SideMirror(infos, bound, Opposite(dir), levels, k) == true
      && Match(Opposite(dir), levels, fills, r) == true
    ensures var infos' := Bump(AfterMarket(Ensure(infos, a), bound, dir, size, a, Executed(r)), a);
      && ResidualFound(PushCompleted(Ensure(infos, a), a, MarketRecord(bound, dir, size, r.tally)), r) == true
      && Moved(infos, infos', bound, bound + 1, MatchedIds(Flatten(levels), |fills|)) == true
      && CopiesFollow(infos', Flatten(levels), fills) == true
  {
    var opp, list := Opposite(dir), Flatten(levels);
    var i1 := PushCompleted(Ensure(infos, a), a, MarketRecord(bound, dir, size, r.tally));
    SameOpenMoved(infos, i1, bound, bound, bound);
    UntouchedSide(infos, i1, bound, bound, {}, k, dir, k, opp, levels);
    MovedTidy(infos, i1, bound, bound, {});
    MakersMirror(i1, bound, opp, levels, k, fills, r);
    MarketEnd(infos, i1, MakerChanges(i1, r), bound, a, list, fills);
  }

  lemma {:induction false} MarketEnd(
      infos: Infos, i1: Infos, i2: Infos, bound: nat, a: Account, list: seq<LimitOrder>, fills: seq<Fill>)
    requires |fills| <= |list| && Moved(infos, i1, bound, bound, {}) == true
    requires Kept(i1, i2, bound, MatchedIds(list, |fills|)) == true && CopiesFollow(i2, list, fills) == true
    ensures Moved(infos, Bump(i2, a), bound, bound + 1, MatchedIds(list, |fills|)) == true
    ensures CopiesFollow(Bump(i2, a), list, fills) == true
  {
    var gone := MatchedIds(list, |fills|);
    MovedKept(infos, i1, i2, bound, bound, gone);
    assert Moved(i2, Bump(i2, a), bound, bound + 1, {}) == true by {
      MovedTidy(infos, i2, bound, bound, gone);
      BumpMoved(i2, a, bound, bound, bound + 1);
    }
    MovedTrans(infos, i2, Bump(i2, a), bound, bound, bound + 1, gone, {});
    assert gone + {} == gone;
    CopiesMoved(i2, Bump(i2, a), bound, bound + 1, list, fills);
  }

  // ---------- all sides of all books ----------

  lemma {:induction false} OtherSideStays(
      s: LedgerState, s': LedgerState, k: nat, dir: Direction, gone: set<nat>, k': nat, dir': Direction)
    requires LedgerOk(s) == true && s.nextId <= s'.nextId && |s'.house.markets| == |s.house.markets|
    requires Moved(s.infos, s'.infos, s.nextId, s'.nextId, gone) == true
      && Belongs(s.infos, s.nextId, gone, k, dir) == true
    requires (k', dir') != (k, dir)
    requires k' < |s.house.markets| ==> Side(s'.house.markets[k'], dir') == Side(s.house.markets[k'], dir')
    ensures SideAt(s', k', dir') == true
  {
    assert SideAt(s, k', dir');
    if k' < |s.house.markets| {
      UntouchedSide(s.infos, s'.infos, s.nextId, s'.nextId, gone, k, dir, k', dir', Side(s.house.markets[k'], dir'));
    }
  }

  /** The books did not change and no copy was removed. */
  lemma {:induction false} BooksUntouched(s: LedgerState, s': LedgerState)
    requires LedgerOk(s) == true && s.nextId <= s'.nextId && s'.house.markets == s.house.markets
    requires Moved(s.infos, s'.infos, s.nextId, s'.nextId, {}) == true
    ensures LedgerOk(s') == true
  {
    forall k: nat, dir ensures SideAt(s', k, dir) {
      OtherSideStays(s, s', k + 1, dir, {}, k, dir);
    }
  }

  /** One market changed; its two sides are known to be mirrored. */
  lemma {:induction false} OneBookChanged(s: LedgerState, s': LedgerState, k: nat, dir: Direction, gone: set<nat>)
    requires LedgerOk(s) == true && s.nextId <= s'.nextId && k < |s.house.markets| == |s'.house.markets|
    requires s'.house.markets == s.house.markets[k := s'.house.markets[k]] && BooksOk(s'.house) == true
    requires Moved(s.infos, s'.infos, s.nextId, s'.nextId, gone) == true
      && Belongs(s.infos, s.nextId, gone, k, dir) == true
    requires SideAt(s', k, dir) == true && SideAt(s', k, Opposite(dir)) == true
    ensures LedgerOk(s') == true
  {
    forall k': nat, d ensures SideAt(s', k', d) {
      if k' != k {
        OtherSideStays(s, s', k, dir, gone, k', d);
      }
    }
  }

  // ---------- what the ledger guarantees to the clearing house ----------

  /** A limit order issued by the ledger is new to the book it goes to. */
  lemma {:induction false} IssuedIsNew(s: LedgerState, tx: Tx)
    requires LedgerOk(s) == true && LegalTx(s, tx) && tx.OrderTx? && tx.kind.LimitKind? && Reaches(s, tx)
    ensures NewOrder(s.house.markets[tx.market], NewLimit(s, tx)) == true
  {
    assert SideAt(s, tx.market, tx.dir);
  }

  lemma {:induction false} NamedIsMirrored(s: LedgerState, tx: Tx)
    requires LedgerOk(s) == true && tx.CancelTx? && HasOpen(s.infos, tx.from, tx.orderId)
    ensures Mirrored(s.infos, Named(s, tx)) && Named(s, tx).id == tx.orderId && Named(s, tx).account == tx.from
  {
    var open := OpenOf(s.infos, tx.from);
    var i := IndexOf(open, tx.orderId);
    assert TidyOpen(open, tx.from, s.nextId);
    assert Same(open[i], open[i]);
  }

  /** A cancel hands the clearing house the current copy of the order: whatever live order it
      names, it is that order up to its status. */
  lemma {:induction false} CancelCopyIsCurrent(s: LedgerState, tx: Tx)
    requires LedgerOk(s) == true && tx.CancelTx? && HasOpen(s.infos, tx.from, tx.orderId)
    requires Named(s, tx).market < |s.house.markets|
    ensures var o := Named(s, tx);
      var list := Flatten(Side(s.house.markets[o.market], o.dir));
      && (forall x :: x in list && SameSlot(x, o) ==> x.(status := o.status) == o)
      && CurrentCopy(list, o) == true
  {
    var o := Named(s, tx);
    NamedIsMirrored(s, tx);
    var list := Flatten(Side(s.house.markets[o.market], o.dir));
    assert SideAt(s, o.market, o.dir);
    forall x | x in list && SameSlot(x, o) ensures x.(status := o.status) == o {
      var j :| 0 <= j < |list| && list[j] == x;
      SameIdSame(s.infos, s.nextId, x, o);
    }
    forall x | x in list && SameSlot(x, o) ensures x.base == o.base && x.filled == o.filled {
      assert x.(status := o.status) == o;
    }
  }

  lemma {:induction false} SameIdSame(infos: Infos, bound: nat, x: LimitOrder, o: LimitOrder)
    requires Tidy(infos, bound) == true && Mirrored(infos, x) && Mirrored(infos, o) && x.id == o.id
    ensures x.(status := o.status) == o
  {
    OneIdOneOrder(infos, bound, x, o);
    assert TidyOpen(OpenOf(infos, o.account), o.account, bound);
    ExactlyOnce(OpenOf(infos, o.account), o);
    ExactlyOnce(OpenOf(infos, o.account), x);
  }
}
