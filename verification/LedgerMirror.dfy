/** The account copies of open orders follow the books through every transaction. */
module LedgerMirror {
  import opened Orders
  import opened BookEdits
  import opened Sweeps
  import opened SpotMarkets
  import opened AccountOrders
  import opened Ledger

  // ---------- makers ----------

  ghost predicate FullId(fills: seq<Fill>, id: nat) {
    exists i :: 0 <= i < |fills| && Full(fills[i]) && fills[i].order.id == id
  }

  lemma {:induction false} DoneIds(fills: seq<Fill>, k: nat)
    requires k < |DoneOrders(fills)|
    ensures FullId(fills, DoneOrders(fills)[k].id)
  {
    if Full(fills[0]) && k == 0 {
      assert DoneOrders(fills)[0].id == fills[0].order.id;
    } else {
      var j := if Full(fills[0]) then k - 1 else k;
      DoneIds(fills[1..], j);
      var i :| 0 <= i < |fills[1..]| && Full(fills[1..][i]) && fills[1..][i].order.id == DoneOrders(fills[1..])[j].id;
      assert fills[1..][i] == fills[i + 1];
    }
  }

  /** A reported order that is open is a completely matched order, not a cancelled entry. */
  lemma {:induction false} ReportedIds(
      infos: Infos, levels: seq<Level>, fills: seq<Fill>, filled: seq<LimitOrder>, id: nat)
    requires Live(filled) == DoneOrders(fills)
    requires forall o :: o in filled && Dead(o) ==> HasDead(levels, o.id)
    requires forall x :: HasDead(levels, x) ==> !OpenId(infos, x)
    requires id in Ids(filled) && OpenId(infos, id)
    ensures FullId(fills, id)
  {
    var k :| 0 <= k < |filled| && filled[k].id == id;
    assert filled[k] in filled;
    if !Dead(filled[k]) {
      var j := EntryIsLive(filled, k);
      DoneIds(fills, j);
    }
  }

  /** Completing the reported orders removes the copies of completely matched orders only. */
  lemma {:induction false} FilledKept(
      infos: Infos, bound: nat, levels: seq<Level>, fills: seq<Fill>, filled: seq<LimitOrder>)
    requires Tidy(infos, bound) == true && Live(filled) == DoneOrders(fills)
    requires forall o :: o in filled && Dead(o) ==> HasDead(levels, o.id)
    requires forall x :: HasDead(levels, x) ==> !OpenId(infos, x)
    ensures Kept(infos, FillAll(infos, filled), bound, Ids(filled)) == true
    ensures forall x :: Mirrored(infos, x) && !FullId(fills, x.id) ==> Mirrored(FillAll(infos, filled), x)
  {
    FillAllKept(infos, filled, bound);
    forall x | Mirrored(infos, x) && !FullId(fills, x.id) ensures Mirrored(FillAll(infos, filled), x) {
      if x.id in Ids(filled) {
        MirroredId(infos, x);
        ReportedIds(infos, levels, fills, filled, x.id);
      }
    }
  }

  ghost predicate DistinctIds(list: seq<LimitOrder>) {
    forall i, j :: 0 <= i < |list| && 0 <= j < |list| && i != j ==> list[i].id != list[j].id
  }

  /** Ids are distinct within a mirrored side. */
  lemma {:induction false} ListIdsDistinct(infos: Infos, bound: nat, side: Direction, levels: seq<Level>, k: nat)
    requires Tidy(infos, bound) == true && AllMirrored(infos, Flatten(levels), side, k) == true && BookOk(side, levels)
    ensures DistinctIds(Flatten(levels))
  {
    var list := Flatten(levels);
    FlattenSorted(side, levels);
    forall i, j | 0 <= i < j < |list| ensures list[i].id != list[j].id {
      assert Before(side, list[i], list[j]);
      if list[i].id == list[j].id {
        OneIdOneOrder(infos, bound, list[i], list[j]);
      }
    }
  }

  /** The part of `gone` that the fills explain. */
  ghost function MatchedIds(list: seq<LimitOrder>, n: nat): set<nat>
    requires n <= |list|
  {
    set i | 0 <= i < n :: list[i].id
  }

  lemma {:induction false} FullAmong(list: seq<LimitOrder>, fills: seq<Fill>, id: nat)
    requires Matches(list, fills) && FullId(fills, id)
    ensures id in MatchedIds(list, |fills|)
    ensures DistinctIds(list) ==> forall j :: 0 <= j < |list| && list[j].id == id ==> j < |fills| && Full(fills[j])
  {
    var i :| 0 <= i < |fills| && Full(fills[i]) && fills[i].order.id == id;
    assert list[i].id == id;
  }

  /** What a match leaves of the copies: the unmatched orders and the partly matched one. */
  ghost predicate CopiesFollow(infos': Infos, list: seq<LimitOrder>, fills: seq<Fill>)
    requires |fills| <= |list|
  {
    forall i :: 0 <= i < |Leftover(list, fills)| ==> Mirrored(infos', Leftover(list, fills)[i])
  }

  lemma {:induction false} TailKept(
      infos: Infos, mid: Infos, list: seq<LimitOrder>, dir: Direction, k: nat, fills: seq<Fill>)
    requires AllMirrored(infos, list, dir, k) == true && DistinctIds(list) && Matches(list, fills)
    requires forall x :: Mirrored(infos, x) && !FullId(fills, x.id) ==> Mirrored(mid, x)
    ensures forall j :: |fills| <= j < |list| ==> Mirrored(mid, list[j])
    ensures fills != [] && !Full(fills[|fills| - 1]) ==> Mirrored(mid, list[|fills| - 1])
  {
    forall j | 0 <= j < |list| && (j < |fills| ==> !Full(fills[j])) ensures Mirrored(mid, list[j]) {
      if FullId(fills, list[j].id) {
        FullAmong(list, fills, list[j].id);
      }
    }
  }

  /** The partly matched order is open when its turn to be booked comes. */
  ghost predicate ResidualFound(infos: Infos, r: Report) {
    r.residual != None ==> HasOpen(FillAll(infos, r.filled), r.residual.value.account, r.residual.value.id)
  }

  /** Matching leaves copies that follow the book, and the lookup for the partly matched
      order never fails. */
  lemma {:induction false} MakersMirror(
      infos: Infos, bound: nat, side: Direction, levels: seq<Level>, k: nat, fills: seq<Fill>, r: Report)
    requires Tidy(infos, bound) == true && SideMirror(infos, bound, side, levels, k) == true
      && BookOk(side, levels) == true
    requires Matches(Flatten(levels), fills) && Live(r.filled) == DoneOrders(fills) && r.residual == ResidualOf(fills)
    requires forall o :: o in r.filled && Dead(o) ==> HasDead(levels, o.id)
    ensures Kept(infos, MakerChanges(infos, r), bound, MatchedIds(Flatten(levels), |fills|)) == true
    ensures CopiesFollow(MakerChanges(infos, r), Flatten(levels), fills) == true
    ensures ResidualFound(infos, r) == true
  {
    var list, mid := Flatten(levels), FillAll(infos, r.filled);
    FilledKept(infos, bound, levels, fills, r.filled);
    ListIdsDistinct(infos, bound, side, levels, k);
    TailKept(infos, mid, list, side, k, fills);
    MidKept(infos, mid, bound, list, fills, Ids(r.filled));
    if r.residual == None {
      WholeLeft(mid, list, fills);
    } else {
      var f := fills[|fills| - 1];
      ResidualKept(mid, f, bound);
      StubLeft(infos, mid, ResidualChange(mid, ResidualFor(f)), bound, list, fills);
    }
  }

  lemma {:induction false} MidKept(
      infos: Infos, mid: Infos, bound: nat, list: seq<LimitOrder>, fills: seq<Fill>, gone: set<nat>)
    requires Matches(list, fills) && Kept(infos, mid, bound, gone) == true
    requires forall x :: Mirrored(infos, x) && !FullId(fills, x.id) ==> Mirrored(mid, x)
    ensures Kept(infos, mid, bound, MatchedIds(list, |fills|)) == true
  {
    forall x | Mirrored(infos, x) && x.id !in MatchedIds(list, |fills|) ensures Mirrored(mid, x) {
      if FullId(fills, x.id) {
        FullAmong(list, fills, x.id);
      }
    }
  }

  lemma {:induction false} WholeLeft(mid: Infos, list: seq<LimitOrder>, fills: seq<Fill>)
    requires |fills| <= |list| && (fills == [] || Full(fills[|fills| - 1]))
    requires forall j :: |fills| <= j < |list| ==> Mirrored(mid, list[j])
    ensures CopiesFollow(mid, list, fills) == true
  {
  }

  lemma {:induction false} StubLeft(
      infos: Infos, mid: Infos, end: Infos, bound: nat, list: seq<LimitOrder>, fills: seq<Fill>)
    requires fills != [] && Matches(list, fills) && DistinctIds(list) && !Full(fills[|fills| - 1])
    requires forall j :: |fills| <= j < |list| ==> Mirrored(mid, list[j])
    requires Kept(infos, mid, bound, MatchedIds(list, |fills|)) == true
    requires Kept(mid, end, bound, {fills[|fills| - 1].order.id}) == true && Mirrored(end, Touched(fills[|fills| - 1]))
    ensures CopiesFollow(end, list, fills) == true
    ensures Kept(infos, end, bound, MatchedIds(list, |fills|)) == true
  {
    var n := |fills|;
    assert list[n - 1].id == fills[n - 1].order.id;
    KeptTrans(infos, mid, end, bound, MatchedIds(list, n), {list[n - 1].id});
    assert MatchedIds(list, n) + {list[n - 1].id} == MatchedIds(list, n);
    forall j | n <= j < |list| ensures Mirrored(end, list[j]) {
      assert list[j].id != list[n - 1].id;
    }
    StubCopies(end, list, fills, Touched(fills[n - 1]));
  }

  lemma {:induction false} StubCopies(end: Infos, list: seq<LimitOrder>, fills: seq<Fill>, stub: LimitOrder)
    requires |fills| <= |list| && Stub(fills) == [stub] && Mirrored(end, stub) == true
    requires forall j :: |fills| <= j < |list| ==> Mirrored(end, list[j]) == true
    ensures CopiesFollow(end, list, fills) == true
  {
    var left := Leftover(list, fills);
    assert forall i :: 0 < i < |left| ==> left[i] == list[|fills| + i - 1];
  }

  // ---------- moves: edits of the open orders during one transaction ----------

  /** Open orders stay tidy, ids below `since` are not opened, and the copies of orders
      outside `gone` stay. */
  ghost predicate Moved(infos: Infos, infos': Infos, since: nat, bound: nat, gone: set<nat>) {
    && Tidy(infos', bound)
    && (forall id :: OpenId(infos', id) ==> OpenId(infos, id) || since <= id)
    && (forall o :: Mirrored(infos, o) && o.id !in gone ==> Mirrored(infos', o))
  }

  lemma {:induction false} MovedTrans(
      a: Infos, b: Infos, c: Infos, since: nat, bound: nat, bound': nat, gone: set<nat>, gone': set<nat>)
    requires Moved(a, b, since, bound, gone) == true && Moved(b, c, since, bound', gone') == true
    ensures Moved(a, c, since, bound', gone + gone') == true
  {
  }

  lemma {:induction false} KeptMoved(a: Infos, b: Infos, since: nat, bound: nat, gone: set<nat>)
    requires Kept(a, b, bound, gone) == true
    ensures Moved(a, b, since, bound, gone) == true
  {
  }

  /** Updates that touch no open order. */
  lemma {:induction false} SameOpenMoved(infos: Infos, infos': Infos, since: nat, bound: nat, bound': nat)
    requires Tidy(infos, bound) == true && bound <= bound' && forall a :: OpenOf(infos', a) == OpenOf(infos, a)
    ensures Moved(infos, infos', since, bound', {}) == true
  {
    forall a ensures TidyOpen(OpenOf(infos', a), a, bound') {
      assert TidyOpen(OpenOf(infos, a), a, bound);
    }
    forall a, b | a != b ensures Ids(OpenOf(infos', a)) !! Ids(OpenOf(infos', b)) {
      assert Ids(OpenOf(infos, a)) !! Ids(OpenOf(infos, b));
    }
    forall id | OpenId(infos', id) ensures OpenId(infos, id) {
      var a :| id in Ids(OpenOf(infos', a));
      assert id in Ids(OpenOf(infos, a));
    }
  }

  /** A newly issued order joins its owner's open orders. */
  lemma {:induction false} PushMoved(infos: Infos, o: LimitOrder, bound: nat)
    requires Tidy(infos, bound) == true && o.id == bound
    ensures Moved(infos, PushOpen(infos, o), bound, bound + 1, {}) == true && Mirrored(PushOpen(infos, o), o)
  {
    PushTidy(infos, o, bound);
    PushMirrors(infos, o);
    var infos' := PushOpen(infos, o);
    forall id | OpenId(infos', id) ensures OpenId(infos, id) || bound <= id {
      var b :| id in Ids(OpenOf(infos', b));
      PushIds(infos, o, b);
      assert id in Ids(OpenOf(infos, b)) || id == bound;
    }
  }

  lemma {:induction false} PushIds(infos: Infos, o: LimitOrder, b: Account)
    ensures Ids(OpenOf(PushOpen(infos, o), b)) == Ids(OpenOf(infos, b)) + if b == o.account then {o.id} else {}
  {
    if b == o.account {
      var open, open' := OpenOf(infos, b), OpenOf(PushOpen(infos, o), b);
      assert open' == open + [o];
      forall id | id in Ids(open) + {o.id} ensures id in Ids(open') {
        if id == o.id {
          assert open'[|open|].id == id;
        } else {
          var i :| 0 <= i < |open| && open[i].id == id;
          assert open'[i].id == id;
        }
      }
    }
  }

  lemma {:induction false} PushTidy(infos: Infos, o: LimitOrder, bound: nat)
    requires Tidy(infos, bound) && o.id == bound
    ensures Tidy(PushOpen(infos, o), bound + 1) == true
  {
    var infos' := PushOpen(infos, o);
    forall b ensures TidyOpen(OpenOf(infos', b), b, bound + 1) {
      assert TidyOpen(OpenOf(infos, b), b, bound);
    }
    forall b, c | b != c ensures Ids(OpenOf(infos', b)) !! Ids(OpenOf(infos', c)) {
      assert Ids(OpenOf(infos, b)) !! Ids(OpenOf(infos, c));
      IdsBelow(OpenOf(infos, b), b, bound);
      IdsBelow(OpenOf(infos, c), c, bound);
      PushIds(infos, o, b);
      PushIds(infos, o, c);
    }
  }

  lemma {:induction false} IdsBelow(open: seq<LimitOrder>, a: Account, bound: nat)
    requires TidyOpen(open, a, bound)
    ensures bound !in Ids(open)
  {
  }

  lemma {:induction false} PushMirrors(infos: Infos, o: LimitOrder)
    ensures forall x :: Mirrored(infos, x) ==> Mirrored(PushOpen(infos, o), x)
    ensures Mirrored(PushOpen(infos, o), o)
  {
    var infos' := PushOpen(infos, o);
    forall x | Mirrored(infos, x) ensures Mirrored(infos', x) {
      var i :| 0 <= i < |OpenOf(infos, x.account)| && Same(OpenOf(infos, x.account)[i], x);
      assert Same(OpenOf(infos', x.account)[i], x);
    }
    var n := |OpenOf(infos, o.account)|;
    assert Same(OpenOf(infos', o.account)[n], o);
  }

  /** Booking the sender's own match finds the copy, and leaves one that agrees with the
      remainder that rests in the book. */
  lemma {:induction false} LimitChangeKept(infos: Infos, o: LimitOrder, lots: nat, bound: nat)
    requires Tidy(infos, bound) == true && Mirrored(infos, o) && o.filled == 0 && o.selfFilled == 0
    ensures HasOpen(infos, o.account, o.id)
    ensures Kept(infos, LimitChange(infos, o.account, o.id, lots), bound, {o.id}) == true
    ensures lots < o.base ==> Mirrored(LimitChange(infos, o.account, o.id, lots), o.(filled := lots))
  {
    var a, open := o.account, OpenOf(infos, o.account);
    assert TidyOpen(open, a, bound);
    ExactlyOnce(open, o);
    var i := IndexOf(open, o.id);
    var infos' := LimitChange(infos, a, o.id, lots);
    if lots < o.base {
      var e := open[i].(status := PartiallyFilled, filled := lots);
      assert infos' == infos[a := InfoOf(infos, a).(open := open[i := e])];
      ReplaceEdits(infos, a, i, e, bound);
      SameMirrored(infos', e, o.(filled := lots));
    } else {
      CompleteEdits(infos, a, o.id, open[i].(status := Filled), bound);
    }
    EditsKept(infos, infos', a, bound, o.id);
  }

  /** A completed order is open no more. */
  lemma {:induction false} CompletedGone(infos: Infos, a: Account, id: nat, done: LimitOrder, bound: nat)
    requires Tidy(infos, bound) == true && HasOpen(infos, a, id)
    ensures !OpenId(Complete(infos, a, id, done), id)
  {
    var infos' := Complete(infos, a, id, done);
    var open := OpenOf(infos, a);
    var i := IndexOf(open, id);
    assert TidyOpen(open, a, bound) && id in Ids(open);
    forall b ensures id !in Ids(OpenOf(infos', b)) {
      if b == a {
        var less := RemoveAt(open, i);
        assert forall k :: 0 <= k < |less| ==> less[k] == open[if k < i then k else k + 1];
      } else {
        assert Ids(open) !! Ids(OpenOf(infos, b));
      }
    }
  }

  // ---------- sides of the books ----------

  /** Every id of `gone` is new or belongs to an open order of one side of one market. */
  ghost predicate Belongs(infos: Infos, since: nat, gone: set<nat>, k: nat, dir: Direction) {
    forall id :: id in gone ==> since <= id || OwnedBy(infos, id, k, dir)
  }

  ghost predicate OwnedBy(infos: Infos, id: nat, k: nat, dir: Direction) {
    exists p :: Mirrored(infos, p) && p.id == id && p.market == k && p.dir == dir
  }

  /** A side that is not touched by the transaction stays mirrored. */
  lemma {:induction false} UntouchedSide(infos: Infos, infos': Infos, bound: nat, bound': nat, gone: set<nat>,
                                         k: nat, dir: Direction, k': nat, dir': Direction, levels: seq<Level>)
    requires Tidy(infos, bound) == true && Moved(infos, infos', bound, bound', gone) == true
      && Belongs(infos, bound, gone, k, dir) == true
    requires SideMirror(infos, bound, dir', levels, k') == true && (k', dir') != (k, dir) && bound <= bound'
    ensures SideMirror(infos', bound', dir', levels, k') == true
  {
    var list := Flatten(levels);
    forall i | 0 <= i < |list| ensures Mirrored(infos', list[i]) {
      MirroredBelow(infos, bound, list[i]);
      if list[i].id in gone {
        var p :| Mirrored(infos, p) && p.id == list[i].id && p.market == k && p.dir == dir;
        OneIdOneOrder(infos, bound, list[i], p);
      }
    }
  }

  lemma {:induction false} MirroredBelow(infos: Infos, bound: nat, o: LimitOrder)
    requires Tidy(infos, bound) == true && Mirrored(infos, o)
    ensures o.id < bound
  {
    assert TidyOpen(OpenOf(infos, o.account), o.account, bound);
    ExactlyOnce(OpenOf(infos, o.account), o);
  }

  /** The side a match took orders off. */
  lemma {:induction false} SweptSideMirror(infos: Infos, infos': Infos, bound: nat, bound': nat, gone: set<nat>,
      k: nat, dir: Direction, levels: seq<Level>, fills: seq<Fill>, levels': seq<Level>)
    requires SideMirror(infos, bound, dir, levels, k) == true && bound <= bound'
      && Moved(infos, infos', bound, bound', gone) == true
    requires TakenOff(dir, levels, fills, levels') == true && Matches(Flatten(levels), fills)
    requires CopiesFollow(infos', Flatten(levels), fills) == true
    ensures SideMirror(infos', bound', dir, levels', k) == true
  {
    LeftoverMirrored(infos, infos', k, dir, Flatten(levels), fills);
    NothingNewDead(infos, infos', bound, bound', gone, k, dir, levels, levels');
  }

  lemma {:induction false} LeftoverMirrored(
      infos: Infos, infos': Infos, k: nat, dir: Direction, list: seq<LimitOrder>, fills: seq<Fill>)
    requires AllMirrored(infos, list, dir, k) && Matches(list, fills) && CopiesFollow(infos', list, fills)
    ensures AllMirrored(infos', Leftover(list, fills), dir, k) == true
  {
    var left := Leftover(list, fills);
    forall i | 0 <= i < |left| ensures left[i].market == k && left[i].dir == dir {
      if |Stub(fills)| <= i {
        assert left[i] == list[|fills| + i - |Stub(fills)|];
      } else {
        assert list[|fills| - 1].market == k;
      }
    }
  }

  lemma {:induction false} NothingNewDead(
      infos: Infos, infos': Infos, bound: nat, bound': nat, gone: set<nat>, k: nat, dir: Direction,
                       levels: seq<Level>, levels': seq<Level>)
    requires SideMirror(infos, bound, dir, levels, k) && bound <= bound' && Moved(infos, infos', bound, bound', gone)
    requires NothingNew(levels, levels')
    ensures (forall id: nat :: HasDead(levels', id) ==> !OpenId(infos', id) && id < bound') && FreshId(levels', bound')
  {
    assert FreshId(levels', bound);
  }

  /** The side a limit order was added to. */
  lemma {:induction false} AddedSideMirror(infos: Infos, infos': Infos, bound: nat, gone: set<nat>,
      k: nat, dir: Direction, levels: seq<Level>, o: LimitOrder, levels': seq<Level>)
    requires SideMirror(infos', bound + 1, dir, levels, k) == true
      && Moved(infos, infos', bound, bound + 1, gone) == true
    requires Added(dir, levels, o, levels') && o.id == bound && o.market == k && o.dir == dir && Mirrored(infos', o)
    ensures SideMirror(infos', bound + 1, dir, levels', k) == true
  {
    EnqueueMembers(dir, Flatten(levels), o);
    var list, list' := Flatten(levels), Flatten(levels');
    forall i | 0 <= i < |list'| ensures list'[i].market == k && list'[i].dir == dir && Mirrored(infos', list'[i]) {
      assert list'[i] in list';
      if list'[i] != o {
        var j :| 0 <= j < |list| && list[j] == list'[i];
      }
    }
  }

  /** The side an order was cancelled on, whether the order was still listed or not. */
  lemma {:induction false} CancelledSideMirror(infos: Infos, infos': Infos, bound: nat, k: nat, dir: Direction,
                                               levels: seq<Level>, o: LimitOrder, levels': seq<Level>)
    requires Tidy(infos, bound) == true && Mirrored(infos, o) && SideMirror(infos, bound, dir, levels, k) == true
    requires Moved(infos, infos', bound, bound, {o.id}) == true && !OpenId(infos', o.id)
    requires if Lists(Flatten(levels), o) then Shrunk(levels, o, levels') else levels' == levels
    ensures SideMirror(infos', bound, dir, levels', k) == true
  {
    MirroredBelow(infos, bound, o);
    if Lists(Flatten(levels), o) {
      ShrunkMirrored(infos, infos', bound, k, dir, Flatten(levels), o, Flatten(levels'));
    } else {
      UnlistedMirrored(infos, infos', bound, k, dir, Flatten(levels), o);
    }
  }

  lemma {:induction false} ShrunkMirrored(infos: Infos, infos': Infos, bound: nat, k: nat, dir: Direction,
      list: seq<LimitOrder>, o: LimitOrder, list': seq<LimitOrder>)
    requires Tidy(infos, bound) == true && Mirrored(infos, o) && AllMirrored(infos, list, dir, k)
    requires Moved(infos, infos', bound, bound, {o.id}) && forall x :: x in list' ==> x in list && !SameSlot(x, o)
    ensures AllMirrored(infos', list', dir, k) == true
  {
    forall i | 0 <= i < |list'| ensures list'[i].market == k && list'[i].dir == dir && Mirrored(infos', list'[i]) {
      assert list'[i] in list';
      var j :| 0 <= j < |list| && list[j] == list'[i];
      if list[j].id == o.id {
        OneIdOneOrder(infos, bound, list[j], o);
      }
    }
  }

  lemma {:induction false} UnlistedMirrored(infos: Infos, infos': Infos, bound: nat, k: nat, dir: Direction,
      list: seq<LimitOrder>, o: LimitOrder)
    requires Tidy(infos, bound) == true && Mirrored(infos, o) && AllMirrored(infos, list, dir, k) == true
    requires Moved(infos, infos', bound, bound, {o.id}) == true && !Lists(list, o)
    ensures AllMirrored(infos', list, dir, k) == true
  {
    ShrunkMirrored(infos, infos', bound, k, dir, list, o, list);
  }
}
