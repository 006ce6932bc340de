/** The open copies and the completed orders of every account after each transaction, exactly, in
    terms of the fills that price-time order gives. */
module TxCopies {
  import opened Orders
  import opened Sweeps
  import opened SpotMarkets
  import opened ClearingHouse
  import opened AccountOrders
  import opened Ledger
  import opened LedgerMirror
  import opened LedgerSteps
  import opened LedgerRuns
  import opened Effects
  import opened Records
  import opened TxAnswers

  // ---------- the copy of one id ----------

  function Find(open: seq<LimitOrder>, id: nat): Option<LimitOrder> {
    if IndexOf(open, id) < |open| then Some(open[IndexOf(open, id)]) else None
  }

  function Copy(infos: Infos, a: Account, id: nat): Option<LimitOrder> { Find(OpenOf(infos, a), id) }

  lemma {:induction false} FindIs(open: seq<LimitOrder>, i: nat)
    requires Ascending(open) && i < |open|
    ensures Find(open, open[i].id) == Some(open[i])
  {
  }

  lemma {:induction false} FindNone(open: seq<LimitOrder>, id: nat)
    requires forall i :: 0 <= i < |open| ==> open[i].id != id
    ensures Find(open, id) == None
  {
  }

  lemma {:induction false} FindRemoved(open: seq<LimitOrder>, i: nat, n: nat)
    requires Ascending(open) && i < |open|
    ensures Find(RemoveAt(open, i), n) == if n == open[i].id then None else Find(open, n)
  {
    var less := RemoveAt(open, i);
    assert forall k :: 0 <= k < |less| ==> less[k] == open[if k < i then k else k + 1];
    assert Ascending(less);
    var j := IndexOf(open, n);
    if j < |open| && j != i {
      FindIs(less, if j < i then j else j - 1);
    } else {
      FindNone(less, n);
    }
  }

  lemma {:induction false} FindReplaced(open: seq<LimitOrder>, i: nat, e: LimitOrder, n: nat)
    requires Ascending(open) && i < |open| && e.id == open[i].id
    ensures Find(open[i := e], n) == if n == e.id then Some(e) else Find(open, n)
  {
    var next := open[i := e];
    assert Ascending(next);
    var j := IndexOf(open, n);
    if n == e.id {
      FindIs(next, i);
    } else if j < |open| {
      FindIs(next, j);
    } else {
      FindNone(next, n);
    }
  }

  lemma {:induction false} FindPushed(open: seq<LimitOrder>, o: LimitOrder, n: nat)
    requires Ascending(open) && forall i :: 0 <= i < |open| ==> open[i].id < o.id
    ensures Find(open + [o], n) == if n == o.id then Some(o) else Find(open, n)
  {
    var all := open + [o];
    assert Ascending(all);
    var j := IndexOf(open, n);
    if n == o.id {
      FindIs(all, |open|);
    } else if j < |open| {
      assert all[j] == open[j];
      FindIs(all, j);
    } else {
      FindNone(all, n);
    }
  }

  lemma {:induction false} CompleteCopy(
      infos: Infos, bound: nat, a: Account, id: nat, done: LimitOrder, b: Account, n: nat)
    requires Tidy(infos, bound) && HasOpen(infos, a, id)
    ensures Copy(Complete(infos, a, id, done), b, n) == if (b, n) == (a, id) then None else Copy(infos, b, n)
  {
    assert TidyOpen(OpenOf(infos, a), a, bound);
    FindRemoved(OpenOf(infos, a), IndexOf(OpenOf(infos, a), id), n);
  }

  lemma {:induction false} ReplaceCopy(infos: Infos, bound: nat, a: Account, i: nat, e: LimitOrder, b: Account, n: nat)
    requires Tidy(infos, bound) && i < |OpenOf(infos, a)| && e.id == OpenOf(infos, a)[i].id
    ensures Copy(infos[a := InfoOf(infos, a).(open := OpenOf(infos, a)[i := e])], b, n)
      == if (b, n) == (a, e.id) then Some(e) else Copy(infos, b, n)
  {
    assert TidyOpen(OpenOf(infos, a), a, bound);
    FindReplaced(OpenOf(infos, a), i, e, n);
  }

  /** An order with a copy is found under its id. */
  lemma {:induction false} CopyOf(infos: Infos, bound: nat, o: LimitOrder)
    requires Tidy(infos, bound) && Mirrored(infos, o)
    ensures Copy(infos, o.account, o.id) != None && Same(Copy(infos, o.account, o.id).value, o)
    ensures OpenId(infos, o.id)
  {
    assert TidyOpen(OpenOf(infos, o.account), o.account, bound);
    ExactlyOnce(OpenOf(infos, o.account), o);
    MirroredId(infos, o);
  }

  lemma {:induction false} CopyIsOpen(infos: Infos, b: Account, n: nat)
    requires Copy(infos, b, n) != None
    ensures OpenId(infos, n)
  {
    assert n in Ids(OpenOf(infos, b));
  }

  // ---------- makers: open copies ----------

  ghost predicate Names(filled: seq<LimitOrder>, b: Account, n: nat) {
    exists k :: 0 <= k < |filled| && filled[k].account == b && filled[k].id == n
  }

  lemma {:induction false} FillOneCopy(infos: Infos, bound: nat, f: LimitOrder, b: Account, n: nat)
    requires Tidy(infos, bound)
    ensures Copy(FillOne(infos, f), b, n) == if (b, n) == (f.account, f.id) then None else Copy(infos, b, n)
  {
    if HasOpen(infos, f.account, f.id) {
      var o := OpenOf(infos, f.account)[IndexOf(OpenOf(infos, f.account), f.id)];
      var done: LimitOrder :=
        if f.selfFilled <= o.base
        then o.(status := Filled, selfFilled := f.selfFilled, filled := o.base - f.selfFilled)
        else o;
      CompleteCopy(infos, bound, f.account, f.id, done, b, n);
    }
  }

  lemma {:induction false} FillAllCopy(infos: Infos, bound: nat, filled: seq<LimitOrder>, b: Account, n: nat)
    requires Tidy(infos, bound)
    ensures Copy(FillAll(infos, filled), b, n) == if Names(filled, b, n) then None else Copy(infos, b, n)
    decreases |filled|
  {
    if filled != [] {
      var mid := FillOne(infos, filled[0]);
      FillOneKept(infos, filled[0], bound);
      FillOneCopy(infos, bound, filled[0], b, n);
      FillAllCopy(mid, bound, filled[1..], b, n);
      NamesTail(filled, b, n);
    }
  }

  lemma {:induction false} NamesTail(filled: seq<LimitOrder>, b: Account, n: nat)
    requires filled != []
    ensures Names(filled, b, n) <==> (b, n) == (filled[0].account, filled[0].id) || Names(filled[1..], b, n)
  {
    assert forall k :: 0 <= k < |filled[1..]| ==> filled[1..][k] == filled[k + 1];
    if Names(filled[1..], b, n) {
      var k :| 0 <= k < |filled[1..]| && filled[1..][k].account == b && filled[1..][k].id == n;
      assert filled[k + 1].account == b && filled[k + 1].id == n;
    }
  }

  lemma {:induction false} DoneHas(fills: seq<Fill>, i: nat)
    requires i < |fills| && Full(fills[i])
    ensures Done(fills[i]) in DoneOrders(fills)
  {
    if i > 0 {
      DoneHas(fills[1..], i - 1);
      assert fills[1..][i - 1] == fills[i];
    }
  }

  lemma {:induction false} DoneFrom(fills: seq<Fill>, k: nat) returns (i: nat)
    requires k < |DoneOrders(fills)|
    ensures i < |fills| && Full(fills[i]) && DoneOrders(fills)[k] == Done(fills[i])
  {
    if Full(fills[0]) && k == 0 {
      i := 0;
    } else {
      var j := DoneFrom(fills[1..], if Full(fills[0]) then k - 1 else k);
      i := j + 1;
    }
  }

  lemma {:induction false} LiveMember(orders: seq<LimitOrder>, o: LimitOrder) returns (i: nat)
    requires o in Live(orders)
    ensures i < |orders| && orders[i] == o
  {
    var k :| 0 <= k < |Live(orders)| && Live(orders)[k] == o;
    i := LiveIsEntry(orders, k);
  }

  predicate IsFill(f: Fill, b: Account, n: nat) { f.order.account == b && f.order.id == n }

  /** The copy of order `n` of account `b` follows the fills: gone if filled whole, with the fill on
      its counters and the same status if filled in part, as it was if not among them. */
  ghost predicate Follows(c: Option<LimitOrder>, c': Option<LimitOrder>, fills: seq<Fill>, b: Account, n: nat) {
    && (forall i :: 0 <= i < |fills| && IsFill(fills[i], b, n) ==>
          if Full(fills[i]) then c' == None
          else c != None && c' == Some(Touched(fills[i]).(status := c.value.status)))
    && ((forall i :: 0 <= i < |fills| ==> !IsFill(fills[i], b, n)) ==> c' == c)
  }

  /** The setting of a match: tidy copies that mirror the side it takes orders off. */
  ghost predicate Setting(
      infos: Infos, bound: nat, side: Direction, levels: seq<Level>, k: nat, fills: seq<Fill>, r: Report)
  {
    Tidy(infos, bound) && SideMirror(infos, bound, side, levels, k) && Match(side, levels, fills, r)
  }

  /** What the proofs below need of it. */
  ghost predicate Suits(infos: Infos, bound: nat, fills: seq<Fill>, filled: seq<LimitOrder>) {
    && Tidy(infos, bound) && Live(filled) == DoneOrders(fills)
    && (forall k :: 0 <= k < |filled| && Dead(filled[k]) ==> !OpenId(infos, filled[k].id))
    && (forall i :: 0 <= i < |fills| ==> Mirrored(infos, fills[i].order))
    && (forall i, j :: 0 <= i < |fills| && 0 <= j < |fills| && i != j ==> fills[i].order.id != fills[j].order.id)
  }

  lemma {:induction false} SettingSuits(
      infos: Infos, bound: nat, side: Direction, levels: seq<Level>, k: nat, fills: seq<Fill>, r: Report)
    requires Setting(infos, bound, side, levels, k, fills, r)
    ensures Suits(infos, bound, fills, r.filled) == true
  {
    ListIdsDistinct(infos, bound, side, levels, k);
    forall k | 0 <= k < |r.filled| && Dead(r.filled[k]) ensures !OpenId(infos, r.filled[k].id) {
      assert r.filled[k] in r.filled;
    }
    forall i | 0 <= i < |fills| ensures Mirrored(infos, fills[i].order) {
      assert fills[i].order == Flatten(levels)[i];
    }
  }

  /** An open order is among the reported ones exactly if it was filled whole. */
  lemma {:induction false} NamedIff(
      infos: Infos, bound: nat, fills: seq<Fill>, filled: seq<LimitOrder>, b: Account, n: nat)
    requires Suits(infos, bound, fills, filled) && Copy(infos, b, n) != None
    ensures Names(filled, b, n) <==> exists i :: 0 <= i < |fills| && Full(fills[i]) && IsFill(fills[i], b, n)
  {
    if Names(filled, b, n) {
      var k :| 0 <= k < |filled| && filled[k].account == b && filled[k].id == n;
      CopyIsOpen(infos, b, n);
      var l := EntryIsLive(filled, k);
      var i := DoneFrom(fills, l);
      assert Full(fills[i]) && IsFill(fills[i], b, n);
    }
    if i :| 0 <= i < |fills| && Full(fills[i]) && IsFill(fills[i], b, n) {
      DoneHas(fills, i);
      var k := LiveMember(filled, Done(fills[i]));
      assert filled[k].account == b && filled[k].id == n;
    }
  }

  lemma {:induction false} FilledFollow(
      infos: Infos, bound: nat, fills: seq<Fill>, filled: seq<LimitOrder>, b: Account, n: nat)
    requires Suits(infos, bound, fills, filled)
    ensures var c, c' := Copy(infos, b, n), Copy(FillAll(infos, filled), b, n);
      if exists i :: 0 <= i < |fills| && Full(fills[i]) && IsFill(fills[i], b, n) then c' == None else c' == c
  {
    FillAllCopy(infos, bound, filled, b, n);
    if Copy(infos, b, n) != None {
      NamedIff(infos, bound, fills, filled, b, n);
    }
  }

  lemma {:induction false} ResidualCopy(infos: Infos, bound: nat, f: Fill, b: Account, n: nat)
    requires Tidy(infos, bound) && Mirrored(infos, f.order)
    ensures var c, c' := Copy(infos, b, n), Copy(ResidualChange(infos, ResidualFor(f)), b, n);
      if IsFill(f, b, n) then c != None && c' == Some(Touched(f).(status := c.value.status)) else c' == c
  {
    var a, open, x := f.order.account, OpenOf(infos, f.order.account), ResidualFor(f);
    CopyOf(infos, bound, f.order);
    var i := IndexOf(open, f.order.id);
    BookedLikeBook(open[i], f);
    ReplaceCopy(infos, bound, a, i, Booked(open[i], x), b, n);
  }

  lemma {:induction false} MakersFollow(
      infos: Infos, bound: nat, side: Direction, levels: seq<Level>, k: nat, fills: seq<Fill>, r: Report, b: Account,
      n: nat)
    requires Setting(infos, bound, side, levels, k, fills, r) == true
    ensures Follows(Copy(infos, b, n), Copy(MakerChanges(infos, r), b, n), fills, b, n) == true
  {
    SettingSuits(infos, bound, side, levels, k, fills, r);
    FilledFollow(infos, bound, fills, r.filled, b, n);
    SettingStub(infos, bound, side, levels, k, fills, r);
    if r.residual != None {
      ResidualCopy(FillAll(infos, r.filled), bound, fills[|fills| - 1], b, n);
    }
    Combine(infos, bound, fills, r, FillAll(infos, r.filled), MakerChanges(infos, r), b, n);
  }

  lemma {:induction false} SettingStub(
      infos: Infos, bound: nat, side: Direction, levels: seq<Level>, k: nat, fills: seq<Fill>, r: Report)
    requires Setting(infos, bound, side, levels, k, fills, r)
    ensures Tidy(FillAll(infos, r.filled), bound) == true && r.residual == ResidualOf(fills)
    ensures forall i :: 0 <= i < |fills| - 1 ==> Full(fills[i])
    ensures r.residual != None ==> fills != [] && Mirrored(FillAll(infos, r.filled), fills[|fills| - 1].order) == true
  {
    FilledKept(infos, bound, levels, fills, r.filled);
    if r.residual != None {
      ListIdsDistinct(infos, bound, side, levels, k);
      TailKept(infos, FillAll(infos, r.filled), Flatten(levels), side, k, fills);
    }
  }

  lemma {:induction false} Combine(infos: Infos, bound: nat, fills: seq<Fill>, r: Report, mid: Infos, end: Infos,
      b: Account, n: nat)
    requires Suits(infos, bound, fills, r.filled) && r.residual == ResidualOf(fills)
    requires forall i :: 0 <= i < |fills| - 1 ==> Full(fills[i])
    requires var c, c' := Copy(infos, b, n), Copy(mid, b, n);
      if exists i :: 0 <= i < |fills| && Full(fills[i]) && IsFill(fills[i], b, n) then c' == None else c' == c
    requires var c, c' := Copy(mid, b, n), Copy(end, b, n);
      if r.residual != None && IsFill(fills[|fills| - 1], b, n)
      then c != None && c' == Some(Touched(fills[|fills| - 1]).(status := c.value.status)) else c' == c
    ensures Follows(Copy(infos, b, n), Copy(end, b, n), fills, b, n) == true
  {
  }

  // ---------- makers: completed orders ----------

  /** The records of account `a` among the orders filled whole, each with all fills on its counters. */
  function FilledRecords(fills: seq<Fill>, a: Account): seq<CompletedOrder> {
    if fills == [] then []
    else
      (if Full(fills[0]) && fills[0].order.account == a
       then [CompletedLimit(Touched(fills[0]).(status := Filled))] else [])
      + FilledRecords(fills[1..], a)
  }

  lemma {:induction false} FillOneDone(infos: Infos, bound: nat, f: Fill, a: Account)
    requires Tidy(infos, bound) && Mirrored(infos, f.order) && Full(f)
    ensures DoneOf(FillOne(infos, Done(f)), a)
      == DoneOf(infos, a) + if f.order.account == a then [CompletedLimit(Touched(f).(status := Filled))] else []
  {
    CopyOf(infos, bound, f.order);
  }

  lemma {:induction false} SkipsDead(infos: Infos, f: LimitOrder, a: Account)
    requires !OpenId(infos, f.id)
    ensures DoneOf(FillOne(infos, f), a) == DoneOf(infos, a)
  {
    assert f.id !in Ids(OpenOf(infos, f.account));
  }

  lemma {:induction false} SuitsNext(
      infos: Infos, bound: nat, fills: seq<Fill>, filled: seq<LimitOrder>, fills': seq<Fill>)
    requires Suits(infos, bound, fills, filled) && filled != [] && Live(filled[1..]) == DoneOrders(fills')
    requires if Dead(filled[0]) then fills' == fills
      else fills != [] && fills' == fills[1..] && filled[0].id == fills[0].order.id
    ensures Suits(FillOne(infos, filled[0]), bound, fills', filled[1..]) == true
  {
    var mid := FillOne(infos, filled[0]);
    FillOneKept(infos, filled[0], bound);
    forall i | 0 <= i < |fills'| ensures Mirrored(mid, fills'[i].order) {
      var j := if Dead(filled[0]) then i else i + 1;
      assert fills'[i] == fills[j];
      if Dead(filled[0]) {
        CopyOf(infos, bound, fills[j].order);
      }
    }
  }

  lemma {:induction false} SuitsTail(infos: Infos, bound: nat, fills: seq<Fill>, filled: seq<LimitOrder>)
    requires Suits(infos, bound, fills, filled) && fills != [] && !Full(fills[0])
    ensures Suits(infos, bound, fills[1..], filled) == true
  {
    assert forall i :: 0 <= i < |fills[1..]| ==> fills[1..][i] == fills[i + 1];
  }

  lemma {:induction false} FillAllDone(
      infos: Infos, bound: nat, fills: seq<Fill>, filled: seq<LimitOrder>, a: Account)
    requires Suits(infos, bound, fills, filled) == true
    ensures DoneOf(FillAll(infos, filled), a) == DoneOf(infos, a) + FilledRecords(fills, a)
    decreases |filled| + |fills|
  {
    if fills != [] && !Full(fills[0]) {
      SuitsTail(infos, bound, fills, filled);
      FillAllDone(infos, bound, fills[1..], filled, a);
      assert FilledRecords(fills, a) == [] + FilledRecords(fills[1..], a);
    } else if filled == [] {
      assert DoneOf(infos, a) + [] == DoneOf(infos, a);
    } else if Dead(filled[0]) {
      SuitsNext(infos, bound, fills, filled, fills);
      SkipsDead(infos, filled[0], a);
      FillAllDone(FillOne(infos, filled[0]), bound, fills, filled[1..], a);
    } else {
      LiveHead(fills, filled);
      SuitsNext(infos, bound, fills, filled, fills[1..]);
      FillOneDone(infos, bound, fills[0], a);
      FillAllDone(FillOne(infos, filled[0]), bound, fills[1..], filled[1..], a);
      HeadRecord(infos, fills, filled, a);
    }
  }

  lemma {:induction false} LiveHead(fills: seq<Fill>, filled: seq<LimitOrder>)
    requires Live(filled) == DoneOrders(fills) && filled != [] && !Dead(filled[0]) && (fills != [] ==> Full(fills[0]))
    ensures fills != [] && filled[0] == Done(fills[0]) && Live(filled[1..]) == DoneOrders(fills[1..])
  {
    assert Live(filled)[0] == filled[0] && Live(filled)[1..] == Live(filled[1..]);
    assert fills != [] ==> DoneOrders(fills)[1..] == DoneOrders(fills[1..]);
  }

  lemma {:induction false} HeadRecord(infos: Infos, fills: seq<Fill>, filled: seq<LimitOrder>, a: Account)
    requires fills != [] && filled != [] && Full(fills[0])
    requires var mid := FillOne(infos, filled[0]);
      && DoneOf(mid, a) == DoneOf(infos, a)
         + (if fills[0].order.account == a then [CompletedLimit(Touched(fills[0]).(status := Filled))] else [])
      && DoneOf(FillAll(mid, filled[1..]), a) == DoneOf(mid, a) + FilledRecords(fills[1..], a)
    ensures DoneOf(FillAll(infos, filled), a) == DoneOf(infos, a) + FilledRecords(fills, a)
  {
    var first :=
      if fills[0].order.account == a then [CompletedLimit(Touched(fills[0]).(status := Filled))] else [];
    AppendAssoc(DoneOf(infos, a), first, FilledRecords(fills[1..], a));
  }

  lemma {:induction false} MakersDone(
      infos: Infos, bound: nat, side: Direction, levels: seq<Level>, k: nat, fills: seq<Fill>, r: Report, a: Account)
    requires Setting(infos, bound, side, levels, k, fills, r) == true
    ensures DoneOf(MakerChanges(infos, r), a) == DoneOf(infos, a) + FilledRecords(fills, a)
  {
    SettingSuits(infos, bound, side, levels, k, fills, r);
    FillAllDone(infos, bound, fills, r.filled, a);
    assert DoneOf(MakerChanges(infos, r), a) == DoneOf(FillAll(infos, r.filled), a);
  }

  // ---------- the sender of a limit order ----------

  lemma {:induction false} IssuedCopy(infos: Infos, o: LimitOrder, b: Account, n: nat)
    requires Tidy(infos, o.id)
    ensures var issued := PushOpen(Ensure(infos, o.account), o);
      && Tidy(issued, o.id + 1) == true && HasOpen(issued, o.account, o.id)
      && Copy(issued, b, n) == (if (b, n) == (o.account, o.id) then Some(o) else Copy(infos, b, n))
      && Copy(issued, o.account, o.id) == Some(o)
  {
    var a := o.account;
    assert TidyOpen(OpenOf(infos, a), a, o.id);
    FindPushed(OpenOf(infos, a), o, n);
    FindPushed(OpenOf(infos, a), o, o.id);
    EnsureKept(infos, a, o.id);
    PushTidy(Ensure(infos, a), o, o.id);
  }

  /** The sender's copy of a new order after it matched `lots` of it on arrival. */
  lemma {:induction false} TakerCopy(infos: Infos, o: LimitOrder, lots: nat, b: Account, n: nat)
    requires Tidy(infos, o.id) && o.filled == 0 && o.selfFilled == 0
    ensures var issued := PushOpen(Ensure(infos, o.account), o);
      && HasOpen(issued, o.account, o.id)
      && Copy(issued, b, n) == (if (b, n) == (o.account, o.id) then Some(o) else Copy(infos, b, n))
      && Copy(LimitChange(issued, o.account, o.id, lots), b, n)
         == if (b, n) != (o.account, o.id) then Copy(infos, b, n)
            else if lots < o.base then Some(o.(status := PartiallyFilled, filled := lots)) else None
  {
    var a, issued := o.account, PushOpen(Ensure(infos, o.account), o);
    IssuedCopy(infos, o, b, n);
    if lots < o.base {
      ReplaceCopy(issued, o.id + 1, a, IndexOf(OpenOf(issued, a), o.id), o.(status := PartiallyFilled, filled := lots),
          b, n);
    } else {
      CompleteCopy(issued, o.id + 1, a, o.id, o.(status := Filled), b, n);
    }
  }

  lemma {:induction false} TakerDone(infos: Infos, o: LimitOrder, lots: nat, a: Account)
    requires Tidy(infos, o.id) && o.filled == 0 && o.selfFilled == 0
    ensures var issued := PushOpen(Ensure(infos, o.account), o);
      && HasOpen(issued, o.account, o.id) && DoneOf(issued, a) == DoneOf(infos, a)
      && DoneOf(LimitChange(issued, o.account, o.id, lots), a)
         == DoneOf(infos, a) + if lots >= o.base && a == o.account then [ArrivalRecord(o)] else []
  {
    TakerCopy(infos, o, lots, o.account, o.id);
  }

  lemma {:induction false} LimitSetting(
      infos: Infos, o: LimitOrder, levels: seq<Level>, fills: seq<Fill>, r: Report, lots: nat)
    requires Tidy(infos, o.id) == true && o.filled == 0 && o.selfFilled == 0
    requires SideMirror(infos, o.id, Opposite(o.dir), levels, o.market) == true
      && Match(Opposite(o.dir), levels, fills, r) == true
    ensures var issued := PushOpen(Ensure(infos, o.account), o);
      && HasOpen(issued, o.account, o.id)
      && Setting(LimitChange(issued, o.account, o.id, lots), o.id + 1, Opposite(o.dir), levels, o.market, fills, r)
         == true
  {
    LimitStart(infos, o, lots);
    var i2 := LimitChange(PushOpen(Ensure(infos, o.account), o), o.account, o.id, lots);
    UntouchedSide(infos, i2, o.id, o.id + 1, {o.id}, o.market, o.dir, o.market, Opposite(o.dir), levels);
    MovedTidy(infos, i2, o.id, o.id + 1, {o.id});
  }

  lemma {:induction false} MarketSetting(infos: Infos, bound: nat, a: Account, c: CompletedOrder, side: Direction,
      k: nat, levels: seq<Level>, fills: seq<Fill>, r: Report)
    requires Tidy(infos, bound) == true && SideMirror(infos, bound, side, levels, k) == true
      && Match(side, levels, fills, r) == true
    ensures Setting(PushCompleted(Ensure(infos, a), a, c), bound, side, levels, k, fills, r) == true
  {
    var i1 := PushCompleted(Ensure(infos, a), a, c);
    SameOpenMoved(infos, i1, bound, bound, bound);
    UntouchedSide(infos, i1, bound, bound, {}, k, Opposite(side), k, side, levels);
    MovedTidy(infos, i1, bound, bound, {});
  }

  // ---------- transactions ----------

  /** The transaction is an order that will meet the other side of its market: a limit order whose
      sender can pay and that meets a level, a market order whose sender can pay. */
  ghost predicate Executes(s: LedgerState, tx: Tx) {
    && tx.OrderTx? && Answered(s, tx)
    && if tx.kind.LimitKind?
       then !Short(s.house, NewLimit(s, tx)) && MeetsLevel(s.house.markets[tx.market], tx.dir, tx.kind.price)
       else WillExecute(s, tx)
  }

  /** The fills it is due. */
  ghost function Due(s: LedgerState, tx: Tx): seq<Fill>
    requires Executes(s, tx)
  {
    var mk, opp := s.house.markets[tx.market], Opposite(tx.dir);
    if tx.kind.LimitKind? then LimitFills(opp, Flatten(Side(mk, opp)), tx.kind.price, tx.kind.size)
    else MarketFills(mk, tx.dir, tx.kind.size, tx.from)
  }

  /** The order is the one the transaction asks for. */
  predicate Asked(tx: Tx, o: LimitOrder)
    requires tx.OrderTx? && tx.kind.LimitKind?
  {
    && o.market == tx.market && o.account == tx.from && o.dir == tx.dir
    && o.price == tx.kind.price && o.base == tx.kind.size
  }

  /** The sender's copy of its new limit order: none if the fills cover its size, else the order
      asked for with the fills on its counter. */
  ghost predicate NewCopy(s: LedgerState, tx: Tx, c: Option<LimitOrder>)
    requires tx.OrderTx? && tx.kind.LimitKind?
  {
    if Executes(s, tx) && AllLots(Due(s, tx)) >= tx.kind.size then c == None
    else
      && c != None && c.value.id == s.nextId && Asked(tx, c.value) && c.value.selfFilled == 0
      && c.value.filled == (if Executes(s, tx) then AllLots(Due(s, tx)) else 0)
      && c.value.status == if Executes(s, tx) then PartiallyFilled else Open
  }

  /** A cancel takes effect if the market the order was placed in exists. */
  predicate Cancels(s: LedgerState, tx: Tx) {
    && tx.CancelTx? && Copy(s.infos, tx.from, tx.orderId) != None
    && Copy(s.infos, tx.from, tx.orderId).value.market < |s.house.markets|
  }

  /** What an answered transaction makes of the copy `c` of order `n` of account `b`. */
  ghost predicate CopyStep(
      s: LedgerState, tx: Tx, b: Account, n: nat, c: Option<LimitOrder>, c': Option<LimitOrder>)
  {
    if tx.OrderTx? && tx.kind.LimitKind? && (b, n) == (tx.from, s.nextId) then NewCopy(s, tx, c')
    else if Executes(s, tx) then Follows(c, c', Due(s, tx), b, n)
    else if Cancels(s, tx) && (b, n) == (tx.from, tx.orderId) then c' == None
    else c' == c
  }

  /** The records an answered transaction adds to account `a`. */
  ghost function Completions(s: LedgerState, tx: Tx, a: Account): seq<CompletedOrder> {
    if !Answered(s, tx) then []
    else if Executes(s, tx) && tx.kind.LimitKind? then
      (if AllLots(Due(s, tx)) >= tx.kind.size && a == tx.from then [ArrivalRecord(NewLimit(s, tx))] else [])
      + FilledRecords(Due(s, tx), a)
    else if Executes(s, tx) then
      (if a == tx.from
       then [MarketRecord(s.nextId, tx.dir, tx.kind.size, TallyOf(Due(s, tx), s.house.markets[tx.market].prec))]
       else [])
      + FilledRecords(Due(s, tx), a)
    else if Cancels(s, tx) && a == tx.from then [CompletedLimit(Copy(s.infos, a, tx.orderId).value)]
    else []
  }

  /** Both together. */
  ghost predicate InfoStep(s: LedgerState, tx: Tx, infos': Infos, b: Account, n: nat) {
    && CopyStep(s, tx, b, n, Copy(s.infos, b, n), Copy(infos', b, n))
    && DoneOf(infos', b) == DoneOf(s.infos, b) + Completions(s, tx, b)
  }

  lemma {:induction false} BumpSame(infos: Infos, a: Account, b: Account, n: nat)
    ensures Copy(Bump(infos, a), b, n) == Copy(infos, b, n) && DoneOf(Bump(infos, a), b) == DoneOf(infos, b)
  {
  }

  lemma {:induction false} LimitMeets(s: LedgerState, tx: Tx, s': LedgerState, res: TxResult, out: Outcome)
    requires LedgerOk(s) && LegalTx(s, tx) && tx.OrderTx? && tx.kind.LimitKind?
    requires LimitTxStep(s, tx, s', res, out) && res != None
    ensures Answered(s, tx) && (out.Executed? <==> Executes(s, tx))
    ensures Executes(s, tx) ==>
      && Due(s, tx) == TargetFills(s.house.markets[tx.market], NewLimit(s, tx))
      && Match(Opposite(tx.dir), Side(s.house.markets[tx.market], Opposite(tx.dir)), Due(s, tx), out.report) == true
      && out.report.tally.lots == AllLots(Due(s, tx))
  {
    var o, mk := NewLimit(s, tx), s.house.markets[tx.market];
    AnswerIff(s, tx, s', res, Traded(out));
    assert MarketOk(mk);
    LimitAnswer(s.house, o, s'.house, out);
    if out.Executed? {
      LimitBooks(mk, o, s'.house.markets[tx.market], out.report);
    }
  }

  lemma {:induction false} LimitExecuted(
      s: LedgerState, tx: Tx, o: LimitOrder, infos': Infos, r: Report, b: Account, n: nat)
    requires LedgerOk(s) == true && tx.OrderTx? && tx.kind.LimitKind? && Executes(s, tx) && o == NewLimit(s, tx)
    requires infos' == AfterLimit(PushOpen(Ensure(s.infos, tx.from), o), o, Executed(r))
    requires Match(Opposite(tx.dir), Side(s.house.markets[tx.market], Opposite(tx.dir)), Due(s, tx), r) == true
    requires r.tally.lots == AllLots(Due(s, tx))
    ensures InfoStep(s, tx, infos', b, n) == true
  {
    var opp, fills := Opposite(tx.dir), Due(s, tx);
    var levels := Side(s.house.markets[tx.market], opp);
    assert SideAt(s, tx.market, opp);
    LimitSetting(s.infos, o, levels, fills, r, r.tally.lots);
    var mid := LimitChange(PushOpen(Ensure(s.infos, tx.from), o), tx.from, o.id, r.tally.lots);
    TakerCopy(s.infos, o, r.tally.lots, b, n);
    TakerDone(s.infos, o, r.tally.lots, b);
    MakersFollow(mid, o.id + 1, opp, levels, tx.market, fills, r, b, n);
    MakersDone(mid, o.id + 1, opp, levels, tx.market, fills, r, b);
    NewIsNoFill(s, tx.market, opp, fills);
    LimitJoined(s, tx, o, mid, infos', fills, b, n);
  }

  /** No fill is of the order that is just being issued. */
  lemma {:induction false} NewIsNoFill(s: LedgerState, k: nat, side: Direction, fills: seq<Fill>)
    requires LedgerOk(s) && k < |s.house.markets| && Matches(Flatten(Side(s.house.markets[k], side)), fills)
    ensures forall i :: 0 <= i < |fills| ==> fills[i].order.id != s.nextId
  {
    assert SideAt(s, k, side);
    forall i | 0 <= i < |fills| ensures fills[i].order.id != s.nextId {
      assert fills[i].order == Flatten(Side(s.house.markets[k], side))[i];
      MirroredBelow(s.infos, s.nextId, fills[i].order);
    }
  }

  lemma {:induction false} LimitJoined(s: LedgerState, tx: Tx, o: LimitOrder, mid: Infos, infos': Infos,
      fills: seq<Fill>, b: Account, n: nat)
    requires tx.OrderTx? && tx.kind.LimitKind? && Executes(s, tx) && fills == Due(s, tx) && o == NewLimit(s, tx)
    requires Follows(Copy(mid, b, n), Copy(infos', b, n), fills, b, n)
    requires forall i :: 0 <= i < |fills| ==> fills[i].order.id != s.nextId
    requires Copy(mid, b, n) == if (b, n) != (tx.from, o.id) then Copy(s.infos, b, n)
      else if AllLots(fills) < o.base then Some(o.(status := PartiallyFilled, filled := AllLots(fills))) else None
    requires DoneOf(mid, b)
      == DoneOf(s.infos, b) + if AllLots(fills) >= o.base && b == tx.from then [ArrivalRecord(o)] else []
    requires DoneOf(infos', b) == DoneOf(mid, b) + FilledRecords(fills, b)
    ensures InfoStep(s, tx, infos', b, n) == true
  {
    LimitJoinedCopy(s, tx, o, mid, infos', fills, b, n);
    var own := if AllLots(fills) >= o.base && b == tx.from then [ArrivalRecord(o)] else [];
    AppendAssoc(DoneOf(s.infos, b), own, FilledRecords(fills, b));
  }

  lemma {:induction false} LimitJoinedCopy(s: LedgerState, tx: Tx, o: LimitOrder, mid: Infos, infos': Infos,
      fills: seq<Fill>, b: Account, n: nat)
    requires tx.OrderTx? && tx.kind.LimitKind? && Executes(s, tx) && fills == Due(s, tx) && o == NewLimit(s, tx)
    requires Follows(Copy(mid, b, n), Copy(infos', b, n), fills, b, n)
    requires forall i :: 0 <= i < |fills| ==> fills[i].order.id != s.nextId
    requires Copy(mid, b, n) == if (b, n) != (tx.from, o.id) then Copy(s.infos, b, n)
      else if AllLots(fills) < o.base then Some(o.(status := PartiallyFilled, filled := AllLots(fills))) else None
    ensures CopyStep(s, tx, b, n, Copy(s.infos, b, n), Copy(infos', b, n)) == true
  {
  }

  lemma {:induction false} InfoBumped(s: LedgerState, tx: Tx, infos': Infos, a: Account, b: Account, n: nat)
    requires InfoStep(s, tx, infos', b, n)
    ensures InfoStep(s, tx, Bump(infos', a), b, n) == true
  {
    BumpSame(infos', a, b, n);
  }

  lemma {:induction false} LimitUnmatched(s: LedgerState, tx: Tx, o: LimitOrder, infos': Infos, b: Account, n: nat)
    requires Tidy(s.infos, s.nextId) && tx.OrderTx? && tx.kind.LimitKind? && !Executes(s, tx) && o == NewLimit(s, tx)
    requires infos' == PushOpen(Ensure(s.infos, tx.from), o)
    ensures InfoStep(s, tx, infos', b, n) == true
  {
    TakerCopy(s.infos, o, 0, b, n);
    assert DoneOf(infos', b) == DoneOf(s.infos, b) + [];
  }

  lemma {:induction false} LimitTxFollows(
      s: LedgerState, tx: Tx, s': LedgerState, res: TxResult, out: Outcome, b: Account, n: nat)
    requires LedgerOk(s) == true && LegalTx(s, tx) == true && tx.OrderTx? && tx.kind.LimitKind?
    requires LimitTxStep(s, tx, s', res, out) == true && res != None
    ensures InfoStep(s, tx, s'.infos, b, n) == true
  {
    var infos, o := Ensure(s.infos, tx.from), NewLimit(s, tx);
    var after := AfterLimit(PushOpen(infos, o), o, out);
    LimitMeets(s, tx, s', res, out);
    LimitTxEnds(s, tx, s', res, out, infos, o);
    if Executes(s, tx) {
      LimitExecuted(s, tx, o, after, out.report, b, n);
    } else {
      LedgerTidy(s);
      LimitUnmatched(s, tx, o, after, b, n);
    }
    InfoBumped(s, tx, after, tx.from, b, n);
  }

  lemma {:induction false} LedgerTidy(s: LedgerState)
    requires LedgerOk(s)
    ensures Tidy(s.infos, s.nextId) == true
  {
  }

  lemma {:induction false} MarketTxFollows(
      s: LedgerState, tx: Tx, s': LedgerState, res: TxResult, out: Outcome, b: Account, n: nat)
    requires LedgerOk(s) == true && LegalTx(s, tx) && tx.OrderTx? && tx.kind.MarketKind?
    requires MarketTxStep(s, tx, s', res, out) && res != None
    ensures InfoStep(s, tx, s'.infos, b, n) == true
  {
    AnswerIff(s, tx, s', res, Traded(out));
    MarketOut(s, tx, s', res, out);
    var after := AfterMarket(Ensure(s.infos, tx.from), s.nextId, tx.dir, tx.kind.size, tx.from, out);
    if Executes(s, tx) {
      assert MarketOk(s.house.markets[tx.market]);
      MarketBooks(s.house.markets[tx.market], tx.dir, tx.kind.size, tx.from, s'.house.markets[tx.market], out.report);
      MarketExecuted(s, tx, out.report, after, b, n);
    }
    BumpSame(after, tx.from, b, n);
  }

  lemma {:induction false} MarketExecuted(s: LedgerState, tx: Tx, r: Report, infos': Infos, b: Account, n: nat)
    requires LedgerOk(s) == true && tx.OrderTx? && tx.kind.MarketKind? && Executes(s, tx)
    requires infos' == AfterMarket(Ensure(s.infos, tx.from), s.nextId, tx.dir, tx.kind.size, tx.from, Executed(r))
    requires Match(Opposite(tx.dir), Side(s.house.markets[tx.market], Opposite(tx.dir)), Due(s, tx), r) == true
    requires r.tally == TallyOf(Due(s, tx), s.house.markets[tx.market].prec)
    ensures InfoStep(s, tx, infos', b, n) == true
  {
    var opp, fills := Opposite(tx.dir), Due(s, tx);
    var levels := Side(s.house.markets[tx.market], opp);
    var c := MarketRecord(s.nextId, tx.dir, tx.kind.size, r.tally);
    var mid := PushCompleted(Ensure(s.infos, tx.from), tx.from, c);
    assert SideAt(s, tx.market, opp);
    MarketSetting(s.infos, s.nextId, tx.from, c, opp, tx.market, levels, fills, r);
    MakersFollow(mid, s.nextId, opp, levels, tx.market, fills, r, b, n);
    MakersDone(mid, s.nextId, opp, levels, tx.market, fills, r, b);
    PushedSame(s.infos, tx.from, c, b, n);
    MarketJoined(s, tx, c, mid, infos', fills, b, n);
  }

  lemma {:induction false} PushedSame(infos: Infos, a: Account, c: CompletedOrder, b: Account, n: nat)
    ensures var mid := PushCompleted(Ensure(infos, a), a, c);
      Copy(mid, b, n) == Copy(infos, b, n) && DoneOf(mid, b) == DoneOf(infos, b) + if b == a then [c] else []
  {
  }

  lemma {:induction false} MarketJoined(s: LedgerState, tx: Tx, c: CompletedOrder, mid: Infos, infos': Infos,
      fills: seq<Fill>, b: Account, n: nat)
    requires tx.OrderTx? && tx.kind.MarketKind? && Executes(s, tx) && fills == Due(s, tx)
    requires c == MarketRecord(s.nextId, tx.dir, tx.kind.size, TallyOf(fills, s.house.markets[tx.market].prec))
    requires Follows(Copy(mid, b, n), Copy(infos', b, n), fills, b, n) && Copy(mid, b, n) == Copy(s.infos, b, n)
    requires DoneOf(mid, b) == DoneOf(s.infos, b) + if b == tx.from then [c] else []
    requires DoneOf(infos', b) == DoneOf(mid, b) + FilledRecords(fills, b)
    ensures InfoStep(s, tx, infos', b, n) == true
  {
    assert CopyStep(s, tx, b, n, Copy(s.infos, b, n), Copy(infos', b, n));
    AppendAssoc(DoneOf(s.infos, b), if b == tx.from then [c] else [], FilledRecords(fills, b));
  }

  lemma {:induction false} CancelTxFollows(
      s: LedgerState, tx: Tx, s': LedgerState, res: TxResult, ok: bool, unfilled: nat, b: Account, n: nat)
    requires LedgerOk(s) == true && LegalTx(s, tx) && tx.CancelTx?
    requires CancelTxStep(s, tx, s', res, ok, unfilled) && res != None
    ensures InfoStep(s, tx, s'.infos, b, n) == true
  {
    var o := Named(s, tx);
    var after := if ok then Complete(s.infos, tx.from, tx.orderId, o) else s.infos;
    AnswerIff(s, tx, s', res, Revoked(ok, unfilled));
    LedgerTidy(s);
    CancelCopies(s, tx, o, ok, after, b, n);
    InfoBumped(s, tx, after, tx.from, b, n);
  }

  lemma {:induction false} CancelCopies(
      s: LedgerState, tx: Tx, o: LimitOrder, ok: bool, infos': Infos, b: Account, n: nat)
    requires Tidy(s.infos, s.nextId) && tx.CancelTx? && Answered(s, tx) == true
    requires HasOpen(s.infos, tx.from, tx.orderId) && o == Named(s, tx) && ok == (o.market < |s.house.markets|)
    requires infos' == if ok then Complete(s.infos, tx.from, tx.orderId, o) else s.infos
    ensures InfoStep(s, tx, infos', b, n) == true
  {
    CompleteCopy(s.infos, s.nextId, tx.from, tx.orderId, o, b, n);
    assert DoneOf(s.infos, b) + [] == DoneOf(s.infos, b);
  }

  lemma {:induction false} TransferFollows(
      s: LedgerState, tx: Tx, s': LedgerState, res: TxResult, d: Detail, b: Account, n: nat)
    requires tx.TransferTx? && TransferStep(s, tx, s', res)
    ensures InfoStep(s, tx, s'.infos, b, n) == true
  {
  }

  /** Every answered transaction changes the open copies and completed orders of every account by
      exactly what its fills say. */
  lemma {:induction false} TxFollows(
      s: LedgerState, tx: Tx, s': LedgerState, res: TxResult, d: Detail, b: Account, n: nat)
    requires LedgerOk(s) == true && LegalTx(s, tx) && TxStep(s, tx, s', res, d) && res != None
    ensures CopyStep(s, tx, b, n, Copy(s.infos, b, n), Copy(s'.infos, b, n)) == true
    ensures DoneOf(s'.infos, b) == DoneOf(s.infos, b) + Completions(s, tx, b)
  {
    match tx
    case TransferTx(_, _, _, _, _) => TransferFollows(s, tx, s', res, d, b, n);
    case OrderTx(_, _, _, LimitKind(_, _), _) => LimitTxFollows(s, tx, s', res, d.out, b, n);
    case OrderTx(_, _, _, MarketKind(_), _) => MarketTxFollows(s, tx, s', res, d.out, b, n);
    case CancelTx(_, _, _, _) => CancelTxFollows(s, tx, s', res, d.ok, d.unfilled, b, n);
  }

  // ---------- runs ----------

  function Joined<T>(parts: seq<seq<T>>): seq<T> {
    if parts == [] then [] else Joined(parts[..|parts| - 1]) + parts[|parts| - 1]
  }

  lemma {:induction false} JoinedAdds<T>(lists: seq<seq<T>>, parts: seq<seq<T>>)
    requires |lists| == |parts| + 1
    requires forall i :: 0 <= i < |parts| ==> lists[i + 1] == lists[i] + parts[i]
    ensures lists[|parts|] == lists[0] + Joined(parts)
  {
    if parts != [] {
      var n := |parts| - 1;
      JoinedAdds(lists[..n + 1], parts[..n]);
      assert lists[n + 1] == lists[n] + parts[n];
    }
  }

  /** All records of account `a` that the first `k` transactions of a run add, in order. */
  ghost function History(ss: seq<LedgerState>, txs: seq<Tx>, k: nat, a: Account): seq<CompletedOrder>
    requires k <= |txs| < |ss|
  {
    Joined(Parts(ss, txs, k, a))
  }

  ghost function Parts(ss: seq<LedgerState>, txs: seq<Tx>, k: nat, a: Account): seq<seq<CompletedOrder>>
    requires k <= |txs| < |ss|
  {
    seq(k, i requires 0 <= i < k => Completions(ss[i], txs[i], a))
  }

  lemma {:induction false} TxCompletes(s: LedgerState, tx: Tx, s': LedgerState, res: TxResult, d: Detail, a: Account)
    requires LedgerOk(s) == true && LegalTx(s, tx) && TxStep(s, tx, s', res, d)
    ensures DoneOf(s'.infos, a) == DoneOf(s.infos, a) + Completions(s, tx, a)
  {
    AnswerIff(s, tx, s', res, d);
    if res == None {
      Unanswered(s, tx, s', d, a, 0);
    } else {
      TxFollows(s, tx, s', res, d, a, 0);
    }
  }

  ghost predicate CompletesAt(s: LedgerState, tx: Tx, s': LedgerState, a: Account) {
    DoneOf(s'.infos, a) == DoneOf(s.infos, a) + Completions(s, tx, a)
  }

  lemma {:induction false} RunSteps(
      ss: seq<LedgerState>, txs: seq<Tx>, results: seq<TxResult>, ds: seq<Detail>, i: nat, a: Account)
    requires LedgerRun(ss, txs, results, ds) && i < |txs| && LedgerOk(ss[0]) == true
    requires forall i {:trigger txs[i]} :: 0 <= i < |txs| ==> LegalTx(ss[i], txs[i]) == true
    ensures CompletesAt(ss[i], txs[i], ss[i + 1], a) == true
  {
    RunKeepsOk(ss, txs, results, ds, i);
    TxCompletes(ss[i], txs[i], ss[i + 1], results[i], ds[i], a);
  }

  /** In every state of every legal run an account's completed orders are exactly those. */
  lemma {:induction false} RunCompletes(
      ss: seq<LedgerState>, txs: seq<Tx>, results: seq<TxResult>, ds: seq<Detail>, k: nat, a: Account)
    requires LedgerRun(ss, txs, results, ds) == true && k <= |txs| < |ss| && LedgerOk(ss[0]) == true
    requires forall i {:trigger txs[i]} :: 0 <= i < |txs| ==> LegalTx(ss[i], txs[i]) == true
    ensures DoneOf(ss[k].infos, a) == DoneOf(ss[0].infos, a) + History(ss, txs, k, a)
  {
    var lists := seq(k + 1, i requires 0 <= i <= k => DoneOf(ss[i].infos, a));
    var parts := Parts(ss, txs, k, a);
    forall i | 0 <= i < k ensures lists[i + 1] == lists[i] + parts[i] {
      RunSteps(ss, txs, results, ds, i, a);
      assert CompletesAt(ss[i], txs[i], ss[i + 1], a);
    }
    JoinedAdds(lists, parts);
  }
}
