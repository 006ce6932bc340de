/** The ledger over whole runs: the mirror invariant, self crosses, and nonces. */
module LedgerRuns {
  import opened Orders
  import opened BookEdits
  import opened Sweeps
  import opened Matching
  import opened SpotMarkets
  import opened ClearingHouse
  import opened Solvency
  import opened AccountOrders
  import opened Ledger
  import opened LedgerMirror
  import opened LedgerSteps

  // ---------- books stay in order ----------

  /** A step replaces at most one market. */
  lemma {:induction false} BooksReplaced(h: House, k: nat, h': House)
    requires BooksOk(h) && k < |h.markets| == |h'.markets| && h'.markets == h.markets[k := h'.markets[k]]
    requires MarketOk(h'.markets[k]) == true
    ensures BooksOk(h') == true
  {
    forall i | 0 <= i < |h'.markets| ensures MarketOk(h'.markets[i]) {
      assert i != k ==> h'.markets[i] == h.markets[i];
    }
  }

  lemma {:induction false} LimitBooksOk(h: House, o: LimitOrder, h': House, out: Outcome)
    requires BooksOk(h) == true && o.filled == 0 && o.selfFilled == 0 && LimitStep(h, o, h', out) && out != Refused
    ensures BooksOk(h') == true
  {
    assert MarketOk(h.markets[o.market]);
    LimitKeepsOk(h.markets[o.market], o, h'.markets[o.market], ReportOf(out));
    BooksReplaced(h, o.market, h');
  }

  lemma {:induction false} MarketBooksOk(
      h: House, m: nat, dir: Direction, size: nat, a: Account, h': House, out: Outcome)
    requires BooksOk(h) == true && (m < |h.markets| && dir == Buy ==> Priced(h.markets[m].asks))
    requires MarketStep(h, m, dir, size, a, h', out) && out != Refused
    ensures BooksOk(h') == true
  {
    assert MarketOk(h.markets[m]);
    MarketKeepsOk(h.markets[m], dir, MarketFills(h.markets[m], dir, size, a), h'.markets[m], out.report);
    BooksReplaced(h, m, h');
  }

  // ---------- limit orders ----------

  /** What happens to the two sides of the market when a limit order matches. */
  lemma {:induction false} LimitBooks(mk: Market, o: LimitOrder, mk': Market, r: Report)
    requires MarketOk(mk) && o.filled == 0 && o.selfFilled == 0 && LimitNext(mk, o, mk', Some(r))
    ensures var opp, fills := Opposite(o.dir), TargetFills(mk, o);
      && TakenOff(opp, Side(mk, opp), fills, Side(mk', opp)) == true
      && Match(opp, Side(mk, opp), fills, r) == true
      && r.tally.lots == AllLots(fills) <= o.base
      && if r.tally.lots < o.base
         then Added(o.dir, Side(mk, o.dir), o.(filled := r.tally.lots), Side(mk', o.dir)) == true
         else Side(mk', o.dir) == Side(mk, o.dir)
  {
    var opp, fills := Opposite(o.dir), TargetFills(mk, o);
    LimitMatches(opp, Side(mk, opp), o.price, o.base);
    NoOwnLots(fills, mk.prec);
  }

  lemma {:induction false} IssueBumped(infos: Infos, o: LimitOrder)
    requires Tidy(infos, o.id) == true
    ensures var infos' := Bump(PushOpen(Ensure(infos, o.account), o), o.account);
      Moved(infos, infos', o.id, o.id + 1, {}) == true && Mirrored(infos', o)
  {
    var i1, none: set<nat> := PushOpen(Ensure(infos, o.account), o), {};
    IssueMoved(infos, o);
    MovedTidy(infos, i1, o.id, o.id + 1, none);
    BumpMoved(i1, o.account, o.id, o.id + 1, o.id + 1);
    MovedTrans(infos, i1, Bump(i1, o.account), o.id, o.id + 1, o.id + 1, none, none);
    assert none + none == none;
  }

  /** The order rests untouched. */
  lemma {:induction false} RestingKeepsOk(s: LedgerState, o: LimitOrder, s': LedgerState)
    requires LedgerOk(s) == true && o.id == s.nextId && s'.nextId == s.nextId + 1 && o.filled == 0 && o.selfFilled == 0
    requires Rested(s.house, o, s'.house) && BooksOk(s'.house) == true
    requires s'.infos == Bump(PushOpen(Ensure(s.infos, o.account), o), o.account)
    ensures LedgerOk(s') == true
  {
    var k, dir, opp, mk, mk' := o.market, o.dir, Opposite(o.dir), s.house.markets[o.market], s'.house.markets[o.market];
    IssueBumped(s.infos, o);
    OtherSideStays(s, s', k, dir, {}, k, opp);
    assert SideMirror(s'.infos, s'.nextId, dir, Side(mk, dir), k) == true by {
      assert SideAt(s, k, dir);
      UntouchedSide(s.infos, s'.infos, s.nextId, s'.nextId, {}, k, opp, k, dir, Side(mk, dir));
    }
    AddedSideMirror(s.infos, s'.infos, s.nextId, {}, k, dir, Side(mk, dir), o, Side(mk', dir));
    OneBookChanged(s, s', k, dir, {});
  }

  ghost predicate Rested(h: House, o: LimitOrder, h': House) {
    && o.market < |h.markets| == |h'.markets| && h'.markets == h.markets[o.market := h'.markets[o.market]]
    && var mk, mk' := h.markets[o.market], h'.markets[o.market];
       && Side(mk', Opposite(o.dir)) == Side(mk, Opposite(o.dir))
       && Added(o.dir, Side(mk, o.dir), o, Side(mk', o.dir))
  }

  /** A match on one side of market `k`, as the books and the accounts see it. */
  ghost predicate Trades(s: LedgerState, s': LedgerState, k: nat, side: Direction, fills: seq<Fill>, gone: set<nat>) {
    && k < |s.house.markets| == |s'.house.markets| && s'.nextId == s.nextId + 1
    && s'.house.markets == s.house.markets[k := s'.house.markets[k]]
    && var levels := Side(s.house.markets[k], side);
       && TakenOff(side, levels, fills, Side(s'.house.markets[k], side)) && Matches(Flatten(levels), fills)
       && Moved(s.infos, s'.infos, s.nextId, s'.nextId, gone) && Belongs(s.infos, s.nextId, gone, k, side)
       && CopiesFollow(s'.infos, Flatten(levels), fills)
  }

  lemma {:induction false} MatchTrades(
      s: LedgerState, s': LedgerState, k: nat, side: Direction, fills: seq<Fill>, r: Report, gone: set<nat>)
    requires k < |s.house.markets| == |s'.house.markets| && s'.nextId == s.nextId + 1
    requires s'.house.markets == s.house.markets[k := s'.house.markets[k]]
    requires var levels := Side(s.house.markets[k], side);
      && Match(side, levels, fills, r) == true && TakenOff(side, levels, fills, Side(s'.house.markets[k], side)) == true
      && |fills| <= |Flatten(levels)| && CopiesFollow(s'.infos, Flatten(levels), fills) == true
    requires Moved(s.infos, s'.infos, s.nextId, s'.nextId, gone) == true
      && Belongs(s.infos, s.nextId, gone, k, side) == true
    ensures Trades(s, s', k, side, fills, gone) == true
  {
  }

  lemma {:induction false} SideBelongs(s: LedgerState, k: nat, side: Direction, n: nat)
    requires LedgerOk(s) && k < |s.house.markets| && n <= |Flatten(Side(s.house.markets[k], side))|
    ensures var matched := MatchedIds(Flatten(Side(s.house.markets[k], side)), n);
      && Belongs(s.infos, s.nextId, matched, k, side) == true
      && Belongs(s.infos, s.nextId, {s.nextId} + matched, k, side) == true
  {
    assert SideAt(s, k, side);
    MatchedBelong(s.infos, s.nextId, Flatten(Side(s.house.markets[k], side)), n, k, side);
  }

  lemma {:induction false} TradesKeepOk(
      s: LedgerState, s': LedgerState, k: nat, side: Direction, fills: seq<Fill>, gone: set<nat>)
    requires LedgerOk(s) == true && Trades(s, s', k, side, fills, gone) && BooksOk(s'.house) == true
    requires SideAt(s', k, Opposite(side)) == true
    ensures LedgerOk(s') == true
  {
    var levels, levels' := Side(s.house.markets[k], side), Side(s'.house.markets[k], side);
    assert SideAt(s', k, side) == true by {
      assert SideAt(s, k, side);
      SweptSideMirror(s.infos, s'.infos, s.nextId, s'.nextId, gone, k, side, levels, fills, levels');
    }
    OneBookChanged(s, s', k, side, gone);
  }

  /** The side of market `k` that did not trade, before anything is added to it. */
  lemma {:induction false} TradesOwnSide(
      s: LedgerState, s': LedgerState, k: nat, side: Direction, fills: seq<Fill>, gone: set<nat>)
    requires LedgerOk(s) == true && Trades(s, s', k, side, fills, gone)
    ensures SideMirror(s'.infos, s'.nextId, Opposite(side), Side(s.house.markets[k], Opposite(side)), k) == true
  {
    var own := Opposite(side);
    assert SideAt(s, k, own);
    UntouchedSide(s.infos, s'.infos, s.nextId, s'.nextId, gone, k, side, k, own, Side(s.house.markets[k], own));
  }

  /** The order matched. */
  lemma {:induction false} ExecutedKeepsOk(s: LedgerState, o: LimitOrder, s': LedgerState, r: Report)
    requires LedgerOk(s) == true && o.id == s.nextId && s'.nextId == s.nextId + 1 && o.filled == 0 && o.selfFilled == 0
    requires o.market < |s.house.markets| == |s'.house.markets| && BooksOk(s'.house) == true
    requires s'.house.markets == s.house.markets[o.market := s'.house.markets[o.market]]
    requires LimitNext(s.house.markets[o.market], o, s'.house.markets[o.market], Some(r)) == true
    requires s'.infos == Bump(AfterLimit(PushOpen(Ensure(s.infos, o.account), o), o, Executed(r)), o.account)
    ensures LedgerOk(s') == true
  {
    var k, dir, opp, mk, mk' := o.market, o.dir, Opposite(o.dir), s.house.markets[o.market], s'.house.markets[o.market];
    var fills := TargetFills(mk, o);
    var gone := {o.id} + MatchedIds(Flatten(Side(mk, opp)), |fills|);
    assert MarketOk(mk);
    LimitBooks(mk, o, mk', r);
    assert LimitFollows(s.infos, s'.infos, o, Flatten(Side(mk, opp)), fills, r.tally.lots) == true by {
      assert SideAt(s, k, opp);
      LimitUpdates(s.infos, o, Side(mk, opp), fills, r, s'.infos);
    }
    LimitTrades(s, o, s', fills, r);
    OppositeTwice(dir);
    TradesOwnSide(s, s', k, opp, fills, gone);
    if r.tally.lots < o.base {
      RemainderMirrored(s, o.(filled := r.tally.lots), s', k, opp, fills, gone);
    }
    TradesKeepOk(s, s', k, opp, fills, gone);
  }

  /** The account updates of a limit order follow its match. */
  ghost predicate LimitFollows(
      infos: Infos, infos': Infos, o: LimitOrder, list: seq<LimitOrder>, fills: seq<Fill>, lots: nat)
    requires o.filled == 0 && o.selfFilled == 0
  {
    && |fills| <= |list| && Moved(infos, infos', o.id, o.id + 1, {o.id} + MatchedIds(list, |fills|))
    && CopiesFollow(infos', list, fills)
    && RestMirrored(infos', o, lots)
  }

  /** What is left of the order after `lots` has its copy. */
  ghost predicate RestMirrored(infos: Infos, o: LimitOrder, lots: nat)
    requires o.filled == 0 && o.selfFilled == 0
  {
    lots < o.base ==> Mirrored(infos, o.(filled := lots))
  }

  lemma {:induction false} LimitUpdates(
      infos: Infos, o: LimitOrder, levels: seq<Level>, fills: seq<Fill>, r: Report, infos': Infos)
    requires Tidy(infos, o.id) == true && o.filled == 0 && o.selfFilled == 0
    requires SideMirror(infos, o.id, Opposite(o.dir), levels, o.market) == true
      && Match(Opposite(o.dir), levels, fills, r) == true
    requires infos' == Bump(AfterLimit(PushOpen(Ensure(infos, o.account), o), o, Executed(r)), o.account)
    ensures LimitFollows(infos, infos', o, Flatten(levels), fills, r.tally.lots) == true
  {
    var i2, i3 := LimitPath(infos, o, levels, fills, r);
    LimitFollowsFrom(infos, i2, i3, infos', o, levels, fills, r.tally.lots);
  }

  lemma {:induction false} LimitFollowsFrom(infos: Infos, i2: Infos, i3: Infos, infos': Infos, o: LimitOrder,
                                            levels: seq<Level>, fills: seq<Fill>, lots: nat)
    requires Tidy(infos, o.id) == true && o.filled == 0 && o.selfFilled == 0 && |fills| <= |Flatten(levels)|
    requires SideMirror(infos, o.id, Opposite(o.dir), levels, o.market) == true
    requires infos' == Bump(i3, o.account) && Moved(infos, i2, o.id, o.id + 1, {o.id}) == true
    requires RestMirrored(i2, o, lots) == true
    requires Kept(i2, i3, o.id + 1, MatchedIds(Flatten(levels), |fills|)) == true
      && CopiesFollow(i3, Flatten(levels), fills) == true
    ensures LimitFollows(infos, infos', o, Flatten(levels), fills, lots) == true
  {
    var list := Flatten(levels);
    AllOfSide(infos, o.id, Opposite(o.dir), levels, o.market);
    LimitFollowsList(infos, i2, i3, infos', o, list, fills, lots);
  }

  lemma {:induction false} LimitFollowsList(infos: Infos, i2: Infos, i3: Infos, infos': Infos, o: LimitOrder,
      list: seq<LimitOrder>, fills: seq<Fill>, lots: nat)
    requires Tidy(infos, o.id) == true && o.filled == 0 && o.selfFilled == 0 && |fills| <= |list|
    requires AllMirrored(infos, list, Opposite(o.dir), o.market) == true
    requires infos' == Bump(i3, o.account) && Moved(infos, i2, o.id, o.id + 1, {o.id}) == true
    requires RestMirrored(i2, o, lots) == true
    requires Kept(i2, i3, o.id + 1, MatchedIds(list, |fills|)) == true && CopiesFollow(i3, list, fills) == true
    ensures LimitFollows(infos, infos', o, list, fills, lots) == true
  {
    LimitEnd(infos, i2, i3, o.account, o.id, list, fills);
    RestSurvives(infos, i2, i3, o, list, |fills|, lots);
    LimitFollowsIs(infos, infos', o, list, fills, lots);
  }

  lemma {:induction false} RestSurvives(infos: Infos, i2: Infos, i3: Infos, o: LimitOrder,
      list: seq<LimitOrder>, n: nat, lots: nat)
    requires Tidy(infos, o.id) == true && o.filled == 0 && o.selfFilled == 0 && n <= |list|
    requires AllMirrored(infos, list, Opposite(o.dir), o.market) == true && RestMirrored(i2, o, lots) == true
    requires Kept(i2, i3, o.id + 1, MatchedIds(list, n)) == true
    ensures RestMirrored(Bump(i3, o.account), o, lots) == true
  {
    if lots < o.base {
      var rest: LimitOrder := o.(filled := lots);
      RestIs(i2, o, lots, rest);
      NewSurvives(infos, i2, i3, o.account, list, n, Opposite(o.dir), o.market, o.id, rest);
      RestIs(Bump(i3, o.account), o, lots, rest);
    }
  }

  lemma {:induction false} RestIs(infos: Infos, o: LimitOrder, lots: nat, rest: LimitOrder)
    requires o.filled == 0 && o.selfFilled == 0 && lots < o.base && rest == o.(filled := lots)
    ensures rest.id == o.id && RestMirrored(infos, o, lots) == Mirrored(infos, rest)
  {
  }

  lemma {:induction false} LimitFollowsIs(
      infos: Infos, infos': Infos, o: LimitOrder, list: seq<LimitOrder>, fills: seq<Fill>, lots: nat)
    requires o.filled == 0 && o.selfFilled == 0 && |fills| <= |list| && CopiesFollow(infos', list, fills) == true
    requires Moved(infos, infos', o.id, o.id + 1, {o.id} + MatchedIds(list, |fills|)) == true
    requires RestMirrored(infos', o, lots) == true
    ensures LimitFollows(infos, infos', o, list, fills, lots) == true
  {
  }

  lemma {:induction false} AllOfSide(infos: Infos, bound: nat, dir: Direction, levels: seq<Level>, k: nat)
    requires SideMirror(infos, bound, dir, levels, k)
    ensures AllMirrored(infos, Flatten(levels), dir, k) == true
  {
  }

  lemma {:induction false} LimitTrades(s: LedgerState, o: LimitOrder, s': LedgerState, fills: seq<Fill>, r: Report)
    requires LedgerOk(s) == true && o.id == s.nextId && s'.nextId == s.nextId + 1 && o.filled == 0 && o.selfFilled == 0
    requires o.market < |s.house.markets| == |s'.house.markets|
    requires s'.house.markets == s.house.markets[o.market := s'.house.markets[o.market]]
    requires var opp, levels := Opposite(o.dir), Side(s.house.markets[o.market], Opposite(o.dir));
      && Match(opp, levels, fills, r) == true
         && TakenOff(opp, levels, fills, Side(s'.house.markets[o.market], opp)) == true
      && LimitFollows(s.infos, s'.infos, o, Flatten(levels), fills, r.tally.lots) == true
    ensures var list := Flatten(Side(s.house.markets[o.market], Opposite(o.dir)));
      |fills| <= |list| && Trades(s, s', o.market, Opposite(o.dir), fills, {o.id} + MatchedIds(list, |fills|)) == true
  {
    var opp, list := Opposite(o.dir), Flatten(Side(s.house.markets[o.market], Opposite(o.dir)));
    LimitFollowsParts(s.infos, s'.infos, o, list, fills, r.tally.lots);
    var gone := {o.id} + MatchedIds(list, |fills|);
    LimitBelongs(s, o, opp, |fills|, gone);
    MatchTrades(s, s', o.market, opp, fills, r, gone);
  }

  lemma {:induction false} LimitBelongs(s: LedgerState, o: LimitOrder, side: Direction, n: nat, gone: set<nat>)
    requires LedgerOk(s) == true && o.id == s.nextId && o.market < |s.house.markets|
    requires n <= |Flatten(Side(s.house.markets[o.market], side))|
    requires gone == {o.id} + MatchedIds(Flatten(Side(s.house.markets[o.market], side)), n)
    ensures Belongs(s.infos, s.nextId, gone, o.market, side) == true
  {
    SideBelongs(s, o.market, side, n);
  }

  lemma {:induction false} LimitFollowsParts(
      infos: Infos, infos': Infos, o: LimitOrder, list: seq<LimitOrder>, fills: seq<Fill>, lots: nat)
    requires o.filled == 0 && o.selfFilled == 0 && LimitFollows(infos, infos', o, list, fills, lots)
    ensures |fills| <= |list| && Moved(infos, infos', o.id, o.id + 1, {o.id} + MatchedIds(list, |fills|)) == true
    ensures CopiesFollow(infos', list, fills) == true
  {
  }

  lemma {:induction false} RemainderMirrored(
      s: LedgerState, o: LimitOrder, s': LedgerState, k: nat, side: Direction, fills: seq<Fill>, gone: set<nat>)
    requires Trades(s, s', k, side, fills, gone) && o.id == s.nextId && o.market == k && o.dir == Opposite(side)
      && Mirrored(s'.infos, o)
    requires SideMirror(s'.infos, s'.nextId, o.dir, Side(s.house.markets[k], o.dir), k) == true
    requires Added(o.dir, Side(s.house.markets[k], o.dir), o, Side(s'.house.markets[k], o.dir)) == true
    ensures SideAt(s', k, o.dir) == true
  {
    AddedSideMirror(s.infos, s'.infos, s.nextId, gone, k, o.dir, Side(s.house.markets[k], o.dir), o,
        Side(s'.house.markets[k], o.dir));
  }

  lemma {:induction false} LimitTxKeepsOk(s: LedgerState, tx: Tx, s': LedgerState, res: TxResult, out: Outcome)
    requires LedgerOk(s) == true && LegalTx(s, tx) && tx.OrderTx? && tx.kind.LimitKind?
    requires LimitTxStep(s, tx, s', res, out)
    ensures LedgerOk(s') == true
  {
    var o := NewLimit(s, tx);
    if res == None && s'.nextId == s.nextId {
      EnsureMoved(s.infos, tx.from, s.nextId, s.nextId);
      BooksUntouched(s, s');
    } else if res == None {
      IssueMoved(s.infos, o);
      BooksUntouched(s, s');
    } else {
      if out == Refused {
        IssueBumped(s.infos, o);
        BooksUntouched(s, s');
      } else {
        LimitBooksOk(s.house, o, s'.house, out);
        if out == Resting {
          RestingKeepsOk(s, o, s');
        } else {
          ExecutedKeepsOk(s, o, s', out.report);
        }
      }
    }
  }

  // ---------- market orders ----------

  lemma {:induction false} MarketBooks(mk: Market, dir: Direction, size: nat, a: Account, mk': Market, r: Report)
    requires MarketOk(mk) && (dir == Buy ==> Priced(mk.asks))
    requires MarketNext(mk, dir, MarketFills(mk, dir, size, a), mk', r)
    ensures var opp, fills := Opposite(dir), MarketFills(mk, dir, size, a);
      && TakenOff(opp, Side(mk, opp), fills, Side(mk', opp)) == true
      && Match(opp, Side(mk, opp), fills, r) == true
      && Side(mk', dir) == Side(mk, dir)
  {
    if dir == Sell {
      SellMatches(mk.bids, size, a);
    } else {
      BuyMatches(mk.asks, size, a, mk.prec);
    }
  }

  lemma {:induction false} MarketExecutedKeepsOk(
      s: LedgerState, k: nat, dir: Direction, size: nat, a: Account, s': LedgerState, r: Report)
    requires LedgerOk(s) == true && k < |s.house.markets| == |s'.house.markets| && s'.nextId == s.nextId + 1
    requires dir == Buy ==> Priced(s.house.markets[k].asks)
    requires s'.house.markets == s.house.markets[k := s'.house.markets[k]] && BooksOk(s'.house) == true
    requires var mk := s.house.markets[k];
      MarketNext(mk, dir, MarketFills(mk, dir, size, a), s'.house.markets[k], r) == true
    requires s'.infos == Bump(AfterMarket(Ensure(s.infos, a), s.nextId, dir, size, a, Executed(r)), a)
    ensures LedgerOk(s') == true
  {
    var opp, mk, mk' := Opposite(dir), s.house.markets[k], s'.house.markets[k];
    var fills := MarketFills(mk, dir, size, a);
    assert MarketOk(mk);
    MarketBooks(mk, dir, size, a, mk', r);
    assert MarketFollows(s.infos, s'.infos, s.nextId, Flatten(Side(mk, opp)), fills) == true by {
      assert SideAt(s, k, opp);
      MarketUpdates(s.infos, s.nextId, dir, size, a, k, Side(mk, opp), fills, r, s'.infos);
    }
    MarketTrades(s, k, dir, s', fills, r);
    var gone := MatchedIds(Flatten(Side(mk, opp)), |fills|);
    OppositeTwice(dir);
    TradesOwnSide(s, s', k, opp, fills, gone);
    TradesKeepOk(s, s', k, opp, fills, gone);
  }

  /** The account updates of a market order follow its match. */
  ghost predicate MarketFollows(infos: Infos, infos': Infos, bound: nat, list: seq<LimitOrder>, fills: seq<Fill>) {
    && |fills| <= |list| && Moved(infos, infos', bound, bound + 1, MatchedIds(list, |fills|))
    && CopiesFollow(infos', list, fills)
  }

  lemma {:induction false} MarketUpdates(infos: Infos, bound: nat, dir: Direction, size: nat, a: Account,
                                         k: nat, levels: seq<Level>, fills: seq<Fill>, r: Report, infos': Infos)
    requires Tidy(infos, bound) == true
    requires SideMirror(infos, bound, Opposite(dir), levels, k) == true
      && Match(Opposite(dir), levels, fills, r) == true
    requires infos' == Bump(AfterMarket(Ensure(infos, a), bound, dir, size, a, Executed(r)), a)
    ensures MarketFollows(infos, infos', bound, Flatten(levels), fills) == true
  {
    MarketMoves(infos, bound, dir, size, a, k, levels, fills, r);
  }

  lemma {:induction false} MarketTrades(
      s: LedgerState, k: nat, dir: Direction, s': LedgerState, fills: seq<Fill>, r: Report)
    requires LedgerOk(s) == true && k < |s.house.markets| == |s'.house.markets| && s'.nextId == s.nextId + 1
    requires s'.house.markets == s.house.markets[k := s'.house.markets[k]]
    requires var opp, levels := Opposite(dir), Side(s.house.markets[k], Opposite(dir));
      && Match(opp, levels, fills, r) == true && TakenOff(opp, levels, fills, Side(s'.house.markets[k], opp)) == true
      && MarketFollows(s.infos, s'.infos, s.nextId, Flatten(levels), fills) == true
    ensures var list := Flatten(Side(s.house.markets[k], Opposite(dir)));
      |fills| <= |list| && Trades(s, s', k, Opposite(dir), fills, MatchedIds(list, |fills|)) == true
  {
    var opp, levels := Opposite(dir), Side(s.house.markets[k], Opposite(dir));
    SideBelongs(s, k, opp, |fills|);
    MatchTrades(s, s', k, opp, fills, r, MatchedIds(Flatten(levels), |fills|));
  }

  lemma {:induction false} MarketTxKeepsOk(s: LedgerState, tx: Tx, s': LedgerState, res: TxResult, out: Outcome)
    requires LedgerOk(s) == true && LegalTx(s, tx) && tx.OrderTx? && tx.kind.MarketKind?
    requires MarketTxStep(s, tx, s', res, out)
    ensures LedgerOk(s') == true
  {
    if res == None {
      SameOpenMoved(s.infos, s'.infos, s.nextId, s.nextId, s'.nextId);
      BooksUntouched(s, s');
    } else {
      if out == Refused {
        SameOpenMoved(s.infos, s'.infos, s.nextId, s.nextId, s'.nextId);
        BooksUntouched(s, s');
      } else {
        MarketBooksOk(s.house, tx.market, tx.dir, tx.kind.size, tx.from, s'.house, out);
        MarketExecutedKeepsOk(s, tx.market, tx.dir, tx.kind.size, tx.from, s', out.report);
      }
    }
  }

  // ---------- cancels ----------

  lemma {:induction false} CancelMoves(infos: Infos, bound: nat, a: Account, id: nat)
    requires Tidy(infos, bound) == true && HasOpen(infos, a, id)
    ensures var o := OpenOf(infos, a)[IndexOf(OpenOf(infos, a), id)];
      var infos' := Bump(Complete(infos, a, id, o), a);
      Moved(infos, infos', bound, bound, {id}) == true && !OpenId(infos', id)
  {
    var o := OpenOf(infos, a)[IndexOf(OpenOf(infos, a), id)];
    var i1 := Complete(infos, a, id, o);
    CompleteEdits(infos, a, id, o, bound);
    EditsKept(infos, i1, a, bound, id);
    CompletedGone(infos, a, id, o, bound);
    KeptMoved(infos, i1, bound, bound, {id});
    BumpMoved(i1, a, bound, bound, bound);
    MovedTrans(infos, i1, Bump(i1, a), bound, bound, bound, {id}, {});
    assert {id} + {} == {id};
    assert forall b :: OpenOf(Bump(i1, a), b) == OpenOf(i1, b);
  }

  /** The mirror alone, without the books' own order. */
  ghost predicate MirrorOk(s: LedgerState) {
    Tidy(s.infos, s.nextId) && forall k: nat, dir :: SideAt(s, k, dir)
  }

  /** Every cancel that does not underflow keeps the mirror, also one that leaves a volume
      short; it keeps the books in order exactly if it is safe. */
  lemma {:induction false} CancelKeepsMirror(s: LedgerState, o: LimitOrder, s': LedgerState, unfilled: nat)
    requires LedgerOk(s) == true && o.market < |s.house.markets| == |s'.house.markets| && s'.nextId == s.nextId
    requires s'.house.markets == s.house.markets[o.market := s'.house.markets[o.market]]
    requires CancelNext(s.house.markets[o.market], o, s'.house.markets[o.market], unfilled) == true
    requires CurrentCopy(Flatten(Side(s.house.markets[o.market], o.dir)), o) == true
    requires Mirrored(s.infos, o) && Moved(s.infos, s'.infos, s.nextId, s.nextId, {o.id}) == true
      && !OpenId(s'.infos, o.id)
    ensures MirrorOk(s') == true
    ensures BooksOk(s'.house) <==> CancelLegal(s, o)
  {
    var k, dir, opp, mk, mk' := o.market, o.dir, Opposite(o.dir), s.house.markets[o.market], s'.house.markets[o.market];
    assert SideAt(s, k, dir) && MarketOk(mk);
    if Lists(Flatten(Side(mk, dir)), o) {
      WithdrawnShrinks(dir, Side(mk, dir), o, Side(mk', dir));
    }
    CancelledSideMirror(s.infos, s'.infos, s.nextId, k, dir, Side(mk, dir), o, Side(mk', dir));
    assert OwnedBy(s.infos, o.id, k, dir);
    MovedTidy(s.infos, s'.infos, s.nextId, s.nextId, {o.id});
    forall k': nat, d ensures SideAt(s', k', d) {
      if (k', d) != (k, dir) {
        assert d == dir || d == opp;
        OtherSideStays(s, s', k, dir, {o.id}, k', d);
      }
    }
    CancelKeepsOk(mk, o, mk', unfilled);
    if CancelLegal(s, o) {
      BooksReplaced(s.house, k, s'.house);
    } else {
      assert !MarketOk(s'.house.markets[k]);
    }
  }

  lemma {:induction false} CancelledKeepsOk(s: LedgerState, o: LimitOrder, s': LedgerState, unfilled: nat)
    requires LedgerOk(s) == true && o.market < |s.house.markets| == |s'.house.markets| && s'.nextId == s.nextId
    requires s'.house.markets == s.house.markets[o.market := s'.house.markets[o.market]]
    requires CancelNext(s.house.markets[o.market], o, s'.house.markets[o.market], unfilled) == true
    requires CurrentCopy(Flatten(Side(s.house.markets[o.market], o.dir)), o) == true && CancelLegal(s, o) == true
    requires Mirrored(s.infos, o) && Moved(s.infos, s'.infos, s.nextId, s.nextId, {o.id}) == true
      && !OpenId(s'.infos, o.id)
    ensures LedgerOk(s') == true
  {
    var k, dir, opp, mk, mk' := o.market, o.dir, Opposite(o.dir), s.house.markets[o.market], s'.house.markets[o.market];
    assert SideAt(s, k, dir) && MarketOk(mk);
    CancelKeepsOk(mk, o, mk', unfilled);
    BooksReplaced(s.house, k, s'.house);
    CancelledSideMirror(s.infos, s'.infos, s.nextId, k, dir, Side(mk, dir), o, Side(mk', dir));
    assert OwnedBy(s.infos, o.id, k, dir);
    OtherSideStays(s, s', k, dir, {o.id}, k, opp);
    OneBookChanged(s, s', k, dir, {o.id});
  }

  lemma {:induction false} CancelTxKeepsOk(
      s: LedgerState, tx: Tx, s': LedgerState, res: TxResult, ok: bool, unfilled: nat)
    requires LedgerOk(s) == true && LegalTx(s, tx) && tx.CancelTx? && CancelTxStep(s, tx, s', res, ok, unfilled)
    ensures LedgerOk(s') == true
  {
    if res != None {
      var o := Named(s, tx);
      NamedIsMirrored(s, tx);
      if ok {
        CancelMoves(s.infos, s.nextId, tx.from, tx.orderId);
        CancelCopyIsCurrent(s, tx);
        CancelledKeepsOk(s, o, s', unfilled);
      } else {
        BumpMoved(s.infos, tx.from, s.nextId, s.nextId, s.nextId);
        BooksUntouched(s, s');
      }
    }
  }

  // ---------- every transaction ----------

  /** Every transaction keeps the copies in agreement with the books. */
  lemma {:induction false} TxKeepsOk(s: LedgerState, tx: Tx, s': LedgerState, res: TxResult, d: Detail)
    requires LedgerOk(s) == true && LegalTx(s, tx) && TxStep(s, tx, s', res, d)
    ensures LedgerOk(s') == true
  {
    match tx
    case TransferTx(_, _, _, _, _) =>
      SameOpenMoved(s.infos, s'.infos, s.nextId, s.nextId, s.nextId);
      BooksUntouched(s, s');
    case OrderTx(_, _, _, LimitKind(_, _), _) => LimitTxKeepsOk(s, tx, s', res, d.out);
    case OrderTx(_, _, _, MarketKind(_), _) => MarketTxKeepsOk(s, tx, s', res, d.out);
    case CancelTx(_, _, _, _) => CancelTxKeepsOk(s, tx, s', res, d.ok, d.unfilled);
  }

  /** Under the invariant each live order has exactly one copy among all open orders: it is
      in its owner's list, found by its id, and agrees in everything but the status. */
  lemma {:induction false} LiveOrderHasOneCopy(s: LedgerState, k: nat, dir: Direction, i: nat)
    requires LedgerOk(s) && k < |s.house.markets| && i < |Flatten(Side(s.house.markets[k], dir))|
    ensures var o := Flatten(Side(s.house.markets[k], dir))[i];
      var open := OpenOf(s.infos, o.account);
      && HasOpen(s.infos, o.account, o.id)
         && open[IndexOf(open, o.id)] == o.(status := open[IndexOf(open, o.id)].status)
      && (forall b, j :: 0 <= j < |OpenOf(s.infos, b)| && OpenOf(s.infos, b)[j].id == o.id ==>
            b == o.account && j == IndexOf(open, o.id))
  {
    assert SideAt(s, k, dir);
    var o := Flatten(Side(s.house.markets[k], dir))[i];
    var open := OpenOf(s.infos, o.account);
    assert TidyOpen(open, o.account, s.nextId);
    ExactlyOnce(open, o);
    MirroredId(s.infos, o);
    forall b, j | 0 <= j < |OpenOf(s.infos, b)| && OpenOf(s.infos, b)[j].id == o.id ensures b == o.account {
      assert o.id in Ids(OpenOf(s.infos, b));
    }
  }

  /** The lookups that insist on finding an open order find it. */
  lemma {:induction false} LookupsSucceed(s: LedgerState, tx: Tx, s': LedgerState, res: TxResult, r: Report)
    requires LedgerOk(s) == true && LegalTx(s, tx) && tx.OrderTx? && res != None
    requires TxStep(s, tx, s', res, Traded(Executed(r)))
    ensures tx.kind.LimitKind? ==>
      var issued := PushOpen(Ensure(s.infos, tx.from), NewLimit(s, tx));
      HasOpen(issued, tx.from, s.nextId) && ResidualFound(LimitChange(issued, tx.from, s.nextId, r.tally.lots), r)
    ensures tx.kind.MarketKind? ==>
      ResidualFound(PushCompleted(Ensure(s.infos, tx.from), tx.from,
          MarketRecord(s.nextId, tx.dir, tx.kind.size, r.tally)), r)
  {
    var k, opp := tx.market, Opposite(tx.dir);
    var mk, mk' := s.house.markets[k], s'.house.markets[k];
    assert SideAt(s, k, opp) && MarketOk(mk);
    if tx.kind.LimitKind? {
      var o := NewLimit(s, tx);
      LimitBooks(mk, o, mk', r);
      LimitLookups(s.infos, o, Side(mk, opp), TargetFills(mk, o), r);
    } else {
      MarketBooks(mk, tx.dir, tx.kind.size, tx.from, mk', r);
      MarketMoves(s.infos, s.nextId, tx.dir, tx.kind.size, tx.from, k, Side(mk, opp),
          MarketFills(mk, tx.dir, tx.kind.size, tx.from), r);
    }
  }

  /** A limit order that passes the self-cross check never meets an order of its sender. */
  lemma {:induction false} NoSelfMatch(s: LedgerState, tx: Tx, i: nat)
    requires LedgerOk(s) && tx.OrderTx? && tx.kind.LimitKind? && tx.market < |s.house.markets|
    requires !IsSelfCross(OpenOf(s.infos, tx.from), tx.dir, tx.kind.price)
    requires i < |TargetFills(s.house.markets[tx.market], NewLimit(s, tx))|
    ensures TargetFills(s.house.markets[tx.market], NewLimit(s, tx))[i].order.account != tx.from
  {
    var k, opp, mk := tx.market, Opposite(tx.dir), s.house.markets[tx.market];
    assert SideAt(s, k, opp) && MarketOk(mk);
    LimitMatches(opp, Side(mk, opp), tx.kind.price, tx.kind.size);
    var x := TargetFills(mk, NewLimit(s, tx))[i].order;
    assert x == Flatten(Side(mk, opp))[i];
    var open := OpenOf(s.infos, x.account);
    assert TidyOpen(open, x.account, s.nextId);
    ExactlyOnce(open, x);
  }

  // ---------- nonces ----------

  lemma {:induction false} FillOneNonces(infos: Infos, f: LimitOrder, a: Account)
    ensures NonceOf(FillOne(infos, f), a) == NonceOf(infos, a)
  {
  }

  lemma {:induction false} MakerNonces(infos: Infos, filled: seq<LimitOrder>, a: Account)
    ensures NonceOf(FillAll(infos, filled), a) == NonceOf(infos, a)
    decreases |filled|
  {
    if filled != [] {
      FillOneNonces(infos, filled[0], a);
      MakerNonces(FillOne(infos, filled[0]), filled[1..], a);
    }
  }

  lemma {:induction false} LimitNonces(infos: Infos, o: LimitOrder, out: Outcome, a: Account)
    ensures NonceOf(AfterLimit(infos, o, out), a) == NonceOf(infos, a)
  {
    if out.Executed? && HasOpen(infos, o.account, o.id) {
      MakerNonces(LimitChange(infos, o.account, o.id, out.report.tally.lots), out.report.filled, a);
    }
  }

  lemma {:induction false} MarketNonces(
      infos: Infos, id: nat, dir: Direction, size: nat, sender: Account, out: Outcome, a: Account)
    ensures NonceOf(AfterMarket(infos, id, dir, size, sender, out), a) == NonceOf(infos, a)
  {
    if out.Executed? {
      MakerNonces(PushCompleted(infos, sender, MarketRecord(id, dir, size, out.report.tally)), out.report.filled, a);
    }
  }

  /** What a transaction does to the nonce of account `a`. */
  ghost predicate NonceStep(infos: Infos, tx: Tx, infos': Infos, res: TxResult, a: Account) {
    && (res != None ==> tx.nonce == NonceOf(infos, tx.from) && res.value == (tx.from, tx.nonce + 1))
    && NonceOf(infos', a) == NonceOf(infos, a) + if res != None && a == tx.from then 1 else 0
  }

  lemma {:induction false} LimitTxInfos(s: LedgerState, tx: Tx, s': LedgerState, res: TxResult, out: Outcome)
    requires tx.OrderTx? && tx.kind.LimitKind? && LimitTxStep(s, tx, s', res, out)
    ensures var issued := PushOpen(Ensure(s.infos, tx.from), NewLimit(s, tx));
      if res == None then s'.infos == Ensure(s.infos, tx.from) || s'.infos == issued
      else tx.nonce == NonceOf(s.infos, tx.from) && res.value == (tx.from, tx.nonce + 1)
           && s'.infos == Bump(AfterLimit(issued, NewLimit(s, tx), out), tx.from)
  {
  }

  lemma {:induction false} BumpNonce(infos: Infos, sender: Account, a: Account)
    ensures NonceOf(Bump(infos, sender), a) == NonceOf(infos, a) + if a == sender then 1 else 0
  {
  }

  lemma {:induction false} IssueNonce(infos: Infos, o: LimitOrder, a: Account)
    ensures NonceOf(PushOpen(Ensure(infos, o.account), o), a) == NonceOf(infos, a)
      == NonceOf(Ensure(infos, o.account), a)
  {
  }

  lemma {:induction false} LimitTxNonce(
      s: LedgerState, tx: Tx, s': LedgerState, res: TxResult, out: Outcome, a: Account)
    requires tx.OrderTx? && tx.kind.LimitKind? && LimitTxStep(s, tx, s', res, out) == true
    ensures NonceStep(s.infos, tx, s'.infos, res, a)
  {
    var o := NewLimit(s, tx);
    var issued := PushOpen(Ensure(s.infos, tx.from), o);
    LimitTxInfos(s, tx, s', res, out);
    IssueNonce(s.infos, o, a);
    if res != None {
      LimitNonces(issued, o, out, a);
      BumpNonce(AfterLimit(issued, o, out), tx.from, a);
    }
  }

  lemma {:induction false} MarketTxNonce(
      s: LedgerState, tx: Tx, s': LedgerState, res: TxResult, out: Outcome, a: Account)
    requires tx.OrderTx? && tx.kind.MarketKind? && MarketTxStep(s, tx, s', res, out)
    ensures NonceStep(s.infos, tx, s'.infos, res, a)
  {
    MarketNonces(Ensure(s.infos, tx.from), s.nextId, tx.dir, tx.kind.size, tx.from, out, a);
  }

  /** A transaction is executed only with the nonce its sender's account expects next, and
      then reports and stores the nonce after it; nothing else changes any nonce. */
  lemma {:induction false} TxNonce(s: LedgerState, tx: Tx, s': LedgerState, res: TxResult, d: Detail, a: Account)
    requires TxStep(s, tx, s', res, d)
    ensures NonceStep(s.infos, tx, s'.infos, res, a)
  {
    match tx
    case OrderTx(_, _, _, LimitKind(_, _), _) => LimitTxNonce(s, tx, s', res, d.out, a);
    case OrderTx(_, _, _, MarketKind(_), _) => MarketTxNonce(s, tx, s', res, d.out, a);
    case _ =>
  }

  // ---------- runs ----------

  /** Consecutive states of the ledger under a sequence of transactions; the transactions of
      a sequence of blocks, repeated or not, are such a sequence. */
  ghost predicate LedgerRun(ss: seq<LedgerState>, txs: seq<Tx>, results: seq<TxResult>, ds: seq<Detail>) {
    && |ss| == |txs| + 1 && |results| == |ds| == |txs|
    && forall i {:trigger txs[i]} :: 0 <= i < |txs| ==> TxStep(ss[i], txs[i], ss[i + 1], results[i], ds[i])
  }

  /** In every run of legal transactions every state satisfies the mirror invariant. */
  lemma {:induction false} RunKeepsOk(
      ss: seq<LedgerState>, txs: seq<Tx>, results: seq<TxResult>, ds: seq<Detail>, k: nat)
    requires LedgerRun(ss, txs, results, ds) && LedgerOk(ss[0]) && k <= |txs|
    requires forall i {:trigger txs[i]} :: 0 <= i < |txs| ==> LegalTx(ss[i], txs[i])
    ensures LedgerOk(ss[k]) == true
  {
    if k > 0 {
      RunKeepsOk(ss, txs, results, ds, k - 1);
      assert LegalTx(ss[k - 1], txs[k - 1]);
      TxKeepsOk(ss[k - 1], txs[k - 1], ss[k], results[k - 1], ds[k - 1]);
    }
  }

  /** The nonces an account's executed transactions reported, in order. */
  function Reported(results: seq<TxResult>, a: Account): seq<nat> {
    if results == [] then []
    else
      var last := results[|results| - 1];
      Reported(results[..|results| - 1], a) + if last != None && last.value.0 == a then [last.value.1] else []
  }

  ghost predicate NonceSteps(ss: seq<LedgerState>, txs: seq<Tx>, results: seq<TxResult>, a: Account) {
    && |ss| == |txs| + 1 && |results| == |txs|
    && forall k {:trigger txs[k]} :: 0 <= k < |txs| ==> NonceStep(ss[k].infos, txs[k], ss[k + 1].infos, results[k], a)
  }

  lemma {:induction false} RunNonces(
      ss: seq<LedgerState>, txs: seq<Tx>, results: seq<TxResult>, ds: seq<Detail>, a: Account)
    requires LedgerRun(ss, txs, results, ds)
    ensures NonceSteps(ss, txs, results, a) == true
  {
    forall k | 0 <= k < |txs| ensures NonceStep(ss[k].infos, txs[k], ss[k + 1].infos, results[k], a) {
      TxNonce(ss[k], txs[k], ss[k + 1], results[k], ds[k], a);
    }
  }

  lemma {:induction false} ReportedInOrder(
      ss: seq<LedgerState>, txs: seq<Tx>, results: seq<TxResult>, a: Account, k: nat)
    requires NonceSteps(ss, txs, results, a) && k <= |txs|
    ensures var rs := Reported(results[..k], a);
      && (forall i :: 0 <= i < |rs| ==> rs[i] == NonceOf(ss[0].infos, a) + i + 1)
      && NonceOf(ss[k].infos, a) == NonceOf(ss[0].infos, a) + |rs|
  {
    if k > 0 {
      ReportedInOrder(ss, txs, results, a, k - 1);
      assert NonceStep(ss[k - 1].infos, txs[k - 1], ss[k].infos, results[k - 1], a);
      assert results[..k][..k - 1] == results[..k - 1];
    }
  }

  lemma {:induction false} NonceGrows(
      ss: seq<LedgerState>, txs: seq<Tx>, results: seq<TxResult>, i: nat, j: nat, a: Account)
    requires NonceSteps(ss, txs, results, a) && i <= j <= |txs|
    ensures NonceOf(ss[i].infos, a) <= NonceOf(ss[j].infos, a)
  {
    if i < j {
      NonceGrows(ss, txs, results, i, j - 1, a);
      assert NonceStep(ss[j - 1].infos, txs[j - 1], ss[j].infos, results[j - 1], a);
    }
  }

  /** Exactly-once execution: whatever transactions are replayed, the executed ones of an
      account report consecutive nonces from the first expected one on, and the account
      ends up expecting the next. */
  lemma {:induction false} ExactlyOnceExecution(
      ss: seq<LedgerState>, txs: seq<Tx>, results: seq<TxResult>, ds: seq<Detail>, a: Account)
    requires LedgerRun(ss, txs, results, ds) == true && |ss| == |txs| + 1
    ensures var rs := Reported(results, a);
      && (forall i :: 0 <= i < |rs| ==> rs[i] == NonceOf(ss[0].infos, a) + i + 1)
      && NonceOf(ss[|txs|].infos, a) == NonceOf(ss[0].infos, a) + |rs|
  {
    RunNonces(ss, txs, results, ds, a);
    ReportedInOrder(ss, txs, results, a, |txs|);
    assert results[..|txs|] == results;
  }

  /** Hence no two executed transactions of a run share sender and nonce. */
  lemma {:induction false} NoReplay(
      ss: seq<LedgerState>, txs: seq<Tx>, results: seq<TxResult>, ds: seq<Detail>, i: nat, j: nat)
    requires LedgerRun(ss, txs, results, ds) == true && |results| == |txs|
    requires i < j < |txs| && results[i] != None && results[j] != None
    ensures (txs[i].from, txs[i].nonce) != (txs[j].from, txs[j].nonce)
  {
    RunNonces(ss, txs, results, ds, txs[i].from);
    LaterNonce(ss, txs, results, i, j);
  }

  lemma {:induction false} LaterNonce(ss: seq<LedgerState>, txs: seq<Tx>, results: seq<TxResult>, i: nat, j: nat)
    requires i < j < |txs| == |results| && results[i] != None && results[j] != None
    requires NonceSteps(ss, txs, results, txs[i].from)
    ensures (txs[i].from, txs[i].nonce) != (txs[j].from, txs[j].nonce)
  {
    var a := txs[i].from;
    NonceGrows(ss, txs, results, i + 1, j, a);
    assert NonceStep(ss[i].infos, txs[i], ss[i + 1].infos, results[i], a);
    assert NonceStep(ss[j].infos, txs[j], ss[j + 1].infos, results[j], a);
  }
}
