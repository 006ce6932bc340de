/** The second copy of every open order, kept per account, and its edits. */
module AccountOrders {
  import opened Orders
  import opened SpotMarkets

  datatype CompletedOrder =
    | CompletedLimit(o: LimitOrder)
    | CompletedMarket(id: nat, dir: Direction, size: nat, filled: nat, selfFilled: nat, status: Status)

  datatype AccountInfo = AccountInfo(nonce: nat, open: seq<LimitOrder>, completed: seq<CompletedOrder>)

  type Infos = map<Account, AccountInfo>

  function InfoOf(infos: Infos, a: Account): AccountInfo {
    if a in infos then infos[a] else AccountInfo(0, [], [])
  }

  function OpenOf(infos: Infos, a: Account): seq<LimitOrder> { InfoOf(infos, a).open }

  function NonceOf(infos: Infos, a: Account): nat { InfoOf(infos, a).nonce }

  /** Looking an account up for update creates it. */
  function Ensure(infos: Infos, a: Account): Infos { infos[a := InfoOf(infos, a)] }

  function Bump(infos: Infos, a: Account): Infos {
    infos[a := InfoOf(infos, a).(nonce := NonceOf(infos, a) + 1)]
  }

  /** Position of an order id, or the length if there is none. */
  function IndexOf(open: seq<LimitOrder>, id: nat): (i: nat)
    ensures i <= |open|
    ensures i < |open| ==> open[i].id == id
    ensures i == |open| ==> forall k :: 0 <= k < |open| ==> open[k].id != id
  {
    if open == [] then 0 else if open[0].id == id then 0 else 1 + IndexOf(open[1..], id)
  }

  predicate HasOpen(infos: Infos, a: Account, id: nat) { IndexOf(OpenOf(infos, a), id) < |OpenOf(infos, a)| }

  function RemoveAt(open: seq<LimitOrder>, i: nat): seq<LimitOrder>
    requires i < |open|
  {
    open[..i] + open[i + 1..]
  }

  // ---------- edits ----------

  function PushOpen(infos: Infos, o: LimitOrder): Infos {
    infos[o.account := InfoOf(infos, o.account).(open := OpenOf(infos, o.account) + [o])]
  }

  /** Move an open order to the completed ones, as `done`. */
  function Complete(infos: Infos, a: Account, id: nat, done: LimitOrder): Infos
    requires HasOpen(infos, a, id)
  {
    var info := InfoOf(infos, a);
    infos[a := info.(
      open := RemoveAt(info.open, IndexOf(info.open, id)),
      completed := info.completed + [CompletedLimit(done)])]
  }

  /** The sender's limit order after it matched `lots` on arrival. */
  function LimitChange(infos: Infos, a: Account, id: nat, lots: nat): Infos
    requires HasOpen(infos, a, id)
  {
    var info := InfoOf(infos, a);
    var i := IndexOf(info.open, id);
    var o := info.open[i];
    if lots < Remaining(o) then
      infos[a := info.(open := info.open[i := o.(status := PartiallyFilled, filled := o.filled + lots)])]
    else
      Complete(infos, a, id, o.(status := Filled))
  }

  /** A completely matched maker leaves the open orders; an id that is not open is skipped. */
  function FillOne(infos: Infos, f: LimitOrder): Infos {
    if !HasOpen(infos, f.account, f.id) then Ensure(infos, f.account)
    else
      var o := OpenOf(infos, f.account)[IndexOf(OpenOf(infos, f.account), f.id)];
      if f.selfFilled <= o.base then
        Complete(infos, f.account, f.id,
            o.(status := Filled, selfFilled := f.selfFilled, filled := o.base - f.selfFilled))
      else
        Complete(infos, f.account, f.id, o)
  }

  function FillAll(infos: Infos, filled: seq<LimitOrder>): Infos
    decreases |filled|
  {
    if filled == [] then infos else FillAll(FillOne(infos, filled[0]), filled[1..])
  }

  /** The partly matched maker. */
  function ResidualChange(infos: Infos, r: Residual): Infos {
    var info := InfoOf(infos, r.account);
    var i := IndexOf(info.open, r.id);
    if i < |info.open| && r.filled + r.selfFill <= Remaining(info.open[i]) then
      infos[r.account := info.(open := info.open[i := Booked(info.open[i], r)])]
    else infos
  }

  function Booked(o: LimitOrder, r: Residual): LimitOrder
    requires r.filled + r.selfFill <= Remaining(o)
  {
    o.(filled := o.filled + r.filled, selfFilled := o.selfFilled + r.selfFill)
  }

  function MakerChanges(infos: Infos, r: Report): Infos {
    var after := FillAll(infos, r.filled);
    if r.residual == None then after else ResidualChange(after, r.residual.value)
  }

  // ---------- tidiness ----------

  ghost function Ids(open: seq<LimitOrder>): set<nat> {
    set i | 0 <= i < |open| :: open[i].id
  }

  /** One account's open orders: sorted by id, filed under the account, older than `bound`. */
  ghost predicate TidyOpen(open: seq<LimitOrder>, a: Account, bound: nat) {
    Ascending(open) && forall i :: 0 <= i < |open| ==> open[i].account == a && open[i].id < bound
  }

  /** All open orders are tidy, and no id is open for two accounts. */
  ghost predicate Tidy(infos: Infos, bound: nat) {
    && (forall a :: TidyOpen(OpenOf(infos, a), a, bound))
    && (forall a, b {:trigger Ids(OpenOf(infos, a)), Ids(OpenOf(infos, b))} ::
          a != b ==> Ids(OpenOf(infos, a)) !! Ids(OpenOf(infos, b)))
  }

  ghost predicate Same(e: LimitOrder, o: LimitOrder) { e == o.(status := e.status) }

  /** The order has a copy among its owner's open orders, up to its status. */
  ghost predicate Mirrored(infos: Infos, o: LimitOrder) { MirroredIn(OpenOf(infos, o.account), o) }

  ghost predicate MirroredIn(open: seq<LimitOrder>, o: LimitOrder) {
    exists i :: 0 <= i < |open| && Same(open[i], o)
  }

  ghost predicate OpenId(infos: Infos, id: nat) {
    exists a :: id in Ids(OpenOf(infos, a))
  }

  /** The copy is unique, and looking its id up finds it. */
  lemma {:induction false} ExactlyOnce(open: seq<LimitOrder>, o: LimitOrder)
    requires Ascending(open) && MirroredIn(open, o)
    ensures IndexOf(open, o.id) < |open| && Same(open[IndexOf(open, o.id)], o)
    ensures forall j :: 0 <= j < |open| && open[j].id == o.id ==> j == IndexOf(open, o.id)
  {
    var i :| 0 <= i < |open| && Same(open[i], o);
    assert open[i].id == o.id;
  }

  lemma {:induction false} MirroredId(infos: Infos, o: LimitOrder)
    requires Mirrored(infos, o)
    ensures o.id in Ids(OpenOf(infos, o.account))
  {
    var open := OpenOf(infos, o.account);
    var i :| 0 <= i < |open| && Same(open[i], o);
    assert open[i].id == o.id;
  }

  /** Two mirrored orders with one id are the same order, up to status. */
  lemma {:induction false} OneIdOneOrder(infos: Infos, bound: nat, o: LimitOrder, p: LimitOrder)
    requires Tidy(infos, bound) && Mirrored(infos, o) && Mirrored(infos, p) && o.id == p.id
    ensures o.account == p.account && SameSlot(o, p) && o.market == p.market && o.dir == p.dir
  {
    MirroredId(infos, o);
    MirroredId(infos, p);
    assert o.account == p.account;
    assert TidyOpen(OpenOf(infos, o.account), o.account, bound);
    ExactlyOnce(OpenOf(infos, o.account), o);
    ExactlyOnce(OpenOf(infos, o.account), p);
  }

  // ---------- edits of one account keep everything tidy ----------

  ghost predicate EditsOne(infos: Infos, infos': Infos, a: Account, bound: nat) {
    && (forall b :: b != a ==> OpenOf(infos', b) == OpenOf(infos, b))
    && TidyOpen(OpenOf(infos', a), a, bound)
    && Ids(OpenOf(infos', a)) <= Ids(OpenOf(infos, a))
    && (forall b :: NonceOf(infos', b) == NonceOf(infos, b))
  }

  lemma {:induction false} EditsOneTidy(infos: Infos, infos': Infos, a: Account, bound: nat)
    requires Tidy(infos, bound) && EditsOne(infos, infos', a, bound)
    ensures Tidy(infos', bound)
    ensures forall id :: OpenId(infos', id) ==> OpenId(infos, id)
  {
    forall b ensures TidyOpen(OpenOf(infos', b), b, bound) && Ids(OpenOf(infos', b)) <= Ids(OpenOf(infos, b)) {
      assert TidyOpen(OpenOf(infos, b), b, bound);
    }
    forall b, c | b != c ensures Ids(OpenOf(infos', b)) !! Ids(OpenOf(infos', c)) {
      assert Ids(OpenOf(infos, b)) !! Ids(OpenOf(infos, c));
    }
    forall id | OpenId(infos', id) ensures OpenId(infos, id) {
      var b :| id in Ids(OpenOf(infos', b));
      assert id in Ids(OpenOf(infos, b));
    }
  }

  lemma {:induction false} RemoveAtTidy(open: seq<LimitOrder>, i: nat, a: Account, bound: nat)
    requires TidyOpen(open, a, bound) && i < |open|
    ensures TidyOpen(RemoveAt(open, i), a, bound)
    ensures Ids(RemoveAt(open, i)) <= Ids(open)
    ensures forall o :: MirroredIn(open, o) && o.id != open[i].id ==> MirroredIn(RemoveAt(open, i), o)
  {
    var less := RemoveAt(open, i);
    assert forall k :: 0 <= k < |less| ==> less[k] == open[if k < i then k else k + 1];
    forall o | MirroredIn(open, o) && o.id != open[i].id ensures MirroredIn(less, o) {
      var k :| 0 <= k < |open| && Same(open[k], o);
      assert Same(less[if k < i then k else k - 1], o);
    }
  }

  lemma {:induction false} ReplaceTidy(open: seq<LimitOrder>, i: nat, e: LimitOrder, a: Account, bound: nat)
    requires TidyOpen(open, a, bound) && i < |open| && e.id == open[i].id && e.account == open[i].account
    ensures TidyOpen(open[i := e], a, bound)
    ensures Ids(open[i := e]) <= Ids(open)
    ensures forall o :: MirroredIn(open, o) && o.id != e.id ==> MirroredIn(open[i := e], o)
    ensures MirroredIn(open[i := e], e)
  {
    var next := open[i := e];
    forall o | MirroredIn(open, o) && o.id != e.id ensures MirroredIn(next, o) {
      var k :| 0 <= k < |open| && Same(open[k], o);
      assert Same(next[k], o);
    }
    assert Same(next[i], e);
    forall id | id in Ids(next) ensures id in Ids(open) {
      var k :| 0 <= k < |next| && next[k].id == id;
      assert open[k].id == id;
    }
  }

  lemma {:induction false} CompleteEdits(infos: Infos, a: Account, id: nat, done: LimitOrder, bound: nat)
    requires Tidy(infos, bound) && HasOpen(infos, a, id)
    ensures EditsOne(infos, Complete(infos, a, id, done), a, bound)
    ensures forall o :: Mirrored(infos, o) && o.id != id ==> Mirrored(Complete(infos, a, id, done), o)
  {
    assert TidyOpen(OpenOf(infos, a), a, bound);
    RemoveAtTidy(OpenOf(infos, a), IndexOf(OpenOf(infos, a), id), a, bound);
  }

  lemma {:induction false} ReplaceEdits(infos: Infos, a: Account, i: nat, e: LimitOrder, bound: nat)
    requires Tidy(infos, bound) && i < |OpenOf(infos, a)|
    requires e.id == OpenOf(infos, a)[i].id && e.account == OpenOf(infos, a)[i].account
    ensures var infos' := infos[a := InfoOf(infos, a).(open := OpenOf(infos, a)[i := e])];
      && EditsOne(infos, infos', a, bound)
      && (forall o :: Mirrored(infos, o) && o.id != e.id ==> Mirrored(infos', o))
      && Mirrored(infos', e)
  {
    assert TidyOpen(OpenOf(infos, a), a, bound);
    ReplaceTidy(OpenOf(infos, a), i, e, a, bound);
  }

  // ---------- the ledger's updates ----------

  /** What an update may do to the open orders: keep them tidy, open no new id, leave the
      copies of all orders outside `gone` alone. */
  ghost predicate Kept(infos: Infos, infos': Infos, bound: nat, gone: set<nat>) {
    && Tidy(infos', bound)
    && (forall id :: OpenId(infos', id) ==> OpenId(infos, id))
    && (forall o :: Mirrored(infos, o) && o.id !in gone ==> Mirrored(infos', o))
    && (forall b :: NonceOf(infos', b) == NonceOf(infos, b))
  }

  lemma {:induction false} KeptTrans(a: Infos, b: Infos, c: Infos, bound: nat, gone: set<nat>, gone': set<nat>)
    requires Kept(a, b, bound, gone) && Kept(b, c, bound, gone')
    ensures Kept(a, c, bound, gone + gone')
  {
  }

  lemma {:induction false} EnsureKept(infos: Infos, a: Account, bound: nat)
    requires Tidy(infos, bound)
    ensures Kept(infos, Ensure(infos, a), bound, {})
  {
    assert forall b :: InfoOf(Ensure(infos, a), b) == InfoOf(infos, b);
    forall b ensures TidyOpen(OpenOf(Ensure(infos, a), b), b, bound) {
      assert TidyOpen(OpenOf(infos, b), b, bound);
    }
    forall b, c | b != c ensures Ids(OpenOf(Ensure(infos, a), b)) !! Ids(OpenOf(Ensure(infos, a), c)) {
      assert Ids(OpenOf(infos, b)) !! Ids(OpenOf(infos, c));
    }
    forall id | OpenId(Ensure(infos, a), id) ensures OpenId(infos, id) {
      var b :| id in Ids(OpenOf(Ensure(infos, a), b));
      assert id in Ids(OpenOf(infos, b));
    }
  }

  lemma {:induction false} EditsKept(infos: Infos, infos': Infos, a: Account, bound: nat, id: nat)
    requires Tidy(infos, bound) && EditsOne(infos, infos', a, bound)
    requires forall o :: Mirrored(infos, o) && o.id != id ==> Mirrored(infos', o)
    ensures Kept(infos, infos', bound, {id})
  {
    EditsOneTidy(infos, infos', a, bound);
  }

  lemma {:induction false} FillOneKept(infos: Infos, f: LimitOrder, bound: nat)
    requires Tidy(infos, bound)
    ensures Kept(infos, FillOne(infos, f), bound, {f.id})
  {
    if !HasOpen(infos, f.account, f.id) {
      EnsureKept(infos, f.account, bound);
    } else {
      var o := OpenOf(infos, f.account)[IndexOf(OpenOf(infos, f.account), f.id)];
      var done: LimitOrder :=
        if f.selfFilled <= o.base
        then o.(status := Filled, selfFilled := f.selfFilled, filled := o.base - f.selfFilled)
        else o;
      CompleteEdits(infos, f.account, f.id, done, bound);
      EditsKept(infos, FillOne(infos, f), f.account, bound, f.id);
    }
  }

  lemma {:induction false} FillAllKept(infos: Infos, filled: seq<LimitOrder>, bound: nat)
    requires Tidy(infos, bound)
    ensures Kept(infos, FillAll(infos, filled), bound, Ids(filled))
    decreases |filled|
  {
    if filled != [] {
      FillOneKept(infos, filled[0], bound);
      var mid := FillOne(infos, filled[0]);
      FillAllKept(mid, filled[1..], bound);
      KeptTrans(infos, mid, FillAll(infos, filled), bound, {filled[0].id}, Ids(filled[1..]));
      assert {filled[0].id} + Ids(filled[1..]) <= Ids(filled) by {
        assert forall i :: 0 <= i < |filled[1..]| ==> filled[1..][i] == filled[i + 1];
      }
    }
  }

  /** Booking a residual finds the maker's copy and updates it like the book did. */
  lemma {:induction false} ResidualKept(infos: Infos, f: Fill, bound: nat)
    requires Tidy(infos, bound) && Mirrored(infos, f.order)
    ensures HasOpen(infos, f.order.account, f.order.id)
    ensures Kept(infos, ResidualChange(infos, ResidualFor(f)), bound, {f.order.id})
    ensures Mirrored(ResidualChange(infos, ResidualFor(f)), Touched(f))
  {
    var a, open, r := f.order.account, OpenOf(infos, f.order.account), ResidualFor(f);
    assert TidyOpen(open, a, bound);
    ExactlyOnce(open, f.order);
    var i := IndexOf(open, f.order.id);
    BookedLikeBook(open[i], f);
    var e := Booked(open[i], r);
    assert ResidualChange(infos, r) == infos[a := InfoOf(infos, a).(open := open[i := e])];
    ReplaceEdits(infos, a, i, e, bound);
    EditsKept(infos, ResidualChange(infos, r), a, bound, f.order.id);
    SameMirrored(ResidualChange(infos, r), e, Touched(f));
  }

  lemma {:induction false} BookedLikeBook(e: LimitOrder, f: Fill)
    requires Same(e, f.order)
    ensures var r := ResidualFor(f);
      r.filled + r.selfFill <= Remaining(e) && Same(Booked(e, r), Touched(f))
      && Booked(e, r).id == e.id == f.order.id && Booked(e, r).account == e.account
  {
  }

  lemma {:induction false} SameMirrored(infos: Infos, e: LimitOrder, o: LimitOrder)
    requires Mirrored(infos, e) && Same(e, o)
    ensures Mirrored(infos, o)
  {
    var open := OpenOf(infos, o.account);
    var i :| 0 <= i < |open| && Same(open[i], e);
    assert Same(open[i], o);
  }
}
