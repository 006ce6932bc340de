/** Adding and cancelling resting orders in one side of a book. */
module BookEdits {
  import opened Orders

  // ---------- adding ----------

  lemma {:induction false} EnqueueSplit(side: Direction, hi: seq<LimitOrder>, lo: seq<LimitOrder>, o: LimitOrder)
    requires forall x :: x in hi ==> Key(side, o.price) <= Key(side, x.price)
    requires forall x :: x in lo ==> Key(side, x.price) < Key(side, o.price)
    ensures Enqueue(side, hi + lo, o) == hi + [o] + lo
  {
    if hi == [] {
      assert hi + lo == lo;
      assert lo != [] ==> lo[0] in lo;
    } else {
      assert (hi + lo)[1..] == hi[1..] + lo;
      assert hi[0] in hi;
      EnqueueSplit(side, hi[1..], lo, o);
    }
  }

  lemma {:induction false} EnqueueMiddle(
    side: Direction, hi: seq<LimitOrder>, mid: seq<LimitOrder>, lo: seq<LimitOrder>, o: LimitOrder)
    requires forall x :: x in hi ==> Key(side, o.price) < Key(side, x.price)
    requires forall x :: x in mid ==> x.price == o.price
    requires forall x :: x in lo ==> Key(side, x.price) < Key(side, o.price)
    ensures Enqueue(side, hi + mid + lo, o) == hi + (mid + [o]) + lo
  {
    EnqueueSplit(side, hi + mid, lo, o);
  }

  /** Flattening around one level. */
  lemma {:induction false} FlattenAround(a: seq<Level>, l: Level, b: seq<Level>)
    ensures Flatten(a + [l] + b) == Flatten(b) + Live(l.orders) + Flatten(a)
  {
    FlattenAppend(a + [l], b);
    FlattenAppend(a, [l]);
    assert [l][..0] == [];
    assert Flatten([l]) == Live(l.orders);
  }

  /** Orders below (above) a split of the levels have strictly worse (better) keys. */
  lemma {:induction false} SplitKeys(side: Direction, levels: seq<Level>, m: nat, n: nat, key: int)
    requires BookOk(side, levels) && m <= n <= |levels|
    requires forall i :: 0 <= i < m ==> Key(side, levels[i].price) < key
    requires forall i :: n <= i < |levels| ==> key < Key(side, levels[i].price)
    ensures forall x :: x in Flatten(levels[..m]) ==> Key(side, x.price) < key
    ensures forall x :: x in Flatten(levels[n..]) ==> key < Key(side, x.price)
  {
    forall k | 0 <= k < |Flatten(levels[..m])|
      ensures Key(side, Flatten(levels[..m])[k].price) < key
    {
      var i, j := FlattenIsEntry(levels[..m], k);
      assert LevelOk(side, levels[i]);
    }
    forall k | 0 <= k < |Flatten(levels[n..])|
      ensures key < Key(side, Flatten(levels[n..])[k].price)
    {
      var i, j := FlattenIsEntry(levels[n..], k);
      assert LevelOk(side, levels[n + i]);
    }
  }

  /** The order may be added: it is new, live and has not traded with its owner. */
  ghost predicate Addable(side: Direction, levels: seq<Level>, o: LimitOrder) {
    FreshId(levels, o.id) && !Dead(o) && o.dir == side && o.selfFilled == 0 && o.filled < o.base
  }

  ghost predicate Added(side: Direction, levels: seq<Level>, o: LimitOrder, levels': seq<Level>) {
    && BookOk(side, levels')
    && Flatten(levels') == Enqueue(side, Flatten(levels), o)
    && FreshId(levels', o.id + 1)
    && (forall id :: HasDead(levels', id) ==> HasDead(levels, id))
    && levels' != []
    && levels'[|levels'| - 1].price
       == (if levels != [] && Key(side, o.price) <= Key(side, levels[|levels| - 1].price)
           then levels[|levels| - 1].price else o.price)
  }

  function Grown(l: Level, o: LimitOrder): Level {
    Level(l.price, l.volume + (o.base - o.filled), l.orders + [o], l.cancelled)
  }

  lemma {:induction false} GrownOk(side: Direction, levels: seq<Level>, m: nat, o: LimitOrder)
    requires BookOk(side, levels) && Addable(side, levels, o)
    requires m < |levels| && levels[m].price == o.price
    ensures LevelOk(side, Grown(levels[m], o))
    ensures Live(Grown(levels[m], o).orders) == Live(levels[m].orders) + [o]
  {
    var l := levels[m];
    assert LevelOk(side, levels[m]);
    LiveAppend(l.orders, [o]);
    VolumeAppend(Live(l.orders), [o]);
    assert [o][1..] == [];
    assert Live([o]) == [o];
    assert Volume([o]) == Remaining(o);
  }

  lemma {:induction false} PushedList(side: Direction, a: seq<Level>, l: Level, b: seq<Level>, o: LimitOrder)
    requires forall x :: x in Flatten(a) ==> Key(side, x.price) < Key(side, o.price)
    requires forall x :: x in Flatten(b) ==> Key(side, o.price) < Key(side, x.price)
    requires forall x :: x in Live(l.orders) ==> x.price == o.price
    requires !Dead(o)
    ensures Flatten(a + [Grown(l, o)] + b) == Enqueue(side, Flatten(a + [l] + b), o)
  {
    FlattenAround(a, l, b);
    FlattenAround(a, Grown(l, o), b);
    LiveAppend(l.orders, [o]);
    assert Live([o]) == [o] + Live([]);
    EnqueueMiddle(side, Flatten(b), Live(l.orders), Flatten(a), o);
  }

  lemma {:induction false} PushedSorted(side: Direction, levels: seq<Level>, m: nat, o: LimitOrder)
    requires BookOk(side, levels) && Addable(side, levels, o)
    requires m < |levels| && levels[m].price == o.price
    ensures BookOk(side, levels[m := Grown(levels[m], o)])
    ensures FreshId(levels[m := Grown(levels[m], o)], o.id + 1)
  {
    GrownOk(side, levels, m, o);
  }

  lemma {:induction false} PushedDead(levels: seq<Level>, m: nat, o: LimitOrder)
    requires m < |levels| && !Dead(o)
    ensures forall id :: HasDead(levels[m := Grown(levels[m], o)], id) ==> HasDead(levels, id)
  {
    var levels' := levels[m := Grown(levels[m], o)];
    forall id | HasDead(levels', id) ensures HasDead(levels, id) {
      var i, j :| 0 <= i < |levels'| && 0 <= j < |levels'[i].orders| && EntryIs(levels'[i].orders[j], id, true);
      assert levels[i].orders[j] == levels'[i].orders[j];
    }
  }

  lemma {:induction false} PushedOk(side: Direction, levels: seq<Level>, m: nat, o: LimitOrder)
    requires BookOk(side, levels) && Addable(side, levels, o)
    requires m < |levels| && levels[m].price == o.price
    ensures Added(side, levels, o, levels[m := Grown(levels[m], o)])
  {
    var l := levels[m];
    var levels' := levels[m := Grown(l, o)];
    var a, b := levels[..m], levels[m + 1..];
    assert levels == a + [l] + b && levels' == a + [Grown(l, o)] + b;
    SplitKeys(side, levels, m, m + 1, Key(side, o.price));
    assert LevelOk(side, l);
    LiveSorted(side, o.price, l.orders);
    PushedList(side, a, l, b, o);
    PushedSorted(side, levels, m, o);
    PushedDead(levels, m, o);
  }

  function NewLevel(o: LimitOrder): Level { Level(o.price, o.base - o.filled, [o], 0) }

  lemma {:induction false} InsertedList(side: Direction, a: seq<Level>, b: seq<Level>, o: LimitOrder)
    requires forall x :: x in Flatten(a) ==> Key(side, x.price) < Key(side, o.price)
    requires forall x :: x in Flatten(b) ==> Key(side, o.price) < Key(side, x.price)
    requires !Dead(o)
    ensures Flatten(a + [NewLevel(o)] + b) == Enqueue(side, Flatten(a + b), o)
  {
    assert [o][1..] == [];
    assert Live(NewLevel(o).orders) == [o];
    FlattenAppend(a, b);
    FlattenAround(a, NewLevel(o), b);
    EnqueueSplit(side, Flatten(b), Flatten(a), o);
  }

  lemma {:induction false} InsertedSorted(side: Direction, levels: seq<Level>, m: nat, o: LimitOrder)
    requires BookOk(side, levels) && Addable(side, levels, o) && m <= |levels|
    requires forall i :: 0 <= i < m ==> Key(side, levels[i].price) < Key(side, o.price)
    requires forall i :: m <= i < |levels| ==> Key(side, o.price) < Key(side, levels[i].price)
    ensures BookOk(side, levels[..m] + [NewLevel(o)] + levels[m..])
    ensures FreshId(levels[..m] + [NewLevel(o)] + levels[m..], o.id + 1)
  {
    assert Live([o]) == [o] + Live([]);
    assert LevelOk(side, NewLevel(o));
  }

  lemma {:induction false} InsertedDead(levels: seq<Level>, m: nat, o: LimitOrder)
    requires m <= |levels| && !Dead(o)
    ensures forall id :: HasDead(levels[..m] + [NewLevel(o)] + levels[m..], id) ==> HasDead(levels, id)
  {
    var levels' := levels[..m] + [NewLevel(o)] + levels[m..];
    forall id | HasDead(levels', id) ensures HasDead(levels, id) {
      var i, j :| 0 <= i < |levels'| && 0 <= j < |levels'[i].orders| && EntryIs(levels'[i].orders[j], id, true);
      assert i != m;
      assert EntryIs(levels[if i < m then i else i - 1].orders[j], id, true);
    }
  }

  lemma {:induction false} InsertedOk(side: Direction, levels: seq<Level>, m: nat, o: LimitOrder)
    requires BookOk(side, levels) && Addable(side, levels, o) && m <= |levels|
    requires forall i :: 0 <= i < m ==> Key(side, levels[i].price) < Key(side, o.price)
    requires forall i :: m <= i < |levels| ==> Key(side, o.price) < Key(side, levels[i].price)
    ensures Added(side, levels, o, levels[..m] + [NewLevel(o)] + levels[m..])
  {
    var levels' := levels[..m] + [NewLevel(o)] + levels[m..];
    assert levels == levels[..m] + levels[m..];
    SplitKeys(side, levels, m, m, Key(side, o.price));
    InsertedList(side, levels[..m], levels[m..], o);
    InsertedSorted(side, levels, m, o);
    InsertedDead(levels, m, o);
  }

  /** Binary search for the price, then push onto the level or insert a new one. */
  method AddOrder(side: Direction, levels: seq<Level>, o: LimitOrder) returns (levels': seq<Level>)
    requires BookOk(side, levels) && Addable(side, levels, o)
    ensures BookOk(side, levels')
    ensures Flatten(levels') == Enqueue(side, Flatten(levels), o)
    ensures Added(side, levels, o, levels')
  {
    var left, right := 0, |levels|;
    while left < right
      invariant left <= right <= |levels|
      invariant forall i :: 0 <= i < left ==> Key(side, levels[i].price) < Key(side, o.price)
      invariant forall i :: right <= i < |levels| ==> Key(side, o.price) < Key(side, levels[i].price)
    {
      var mid := left + (right - left) / 2;
      if o.price == levels[mid].price {
        PushedOk(side, levels, mid, o);
        return levels[mid := Grown(levels[mid], o)];
      } else if Key(side, o.price) < Key(side, levels[mid].price) {
        right := mid;
      } else {
        left := mid + 1;
      }
    }
    InsertedOk(side, levels, left, o);
    return levels[..left] + [NewLevel(o)] + levels[left..];
  }

  lemma {:induction false} EnqueueMembers(side: Direction, list: seq<LimitOrder>, o: LimitOrder)
    ensures multiset(Enqueue(side, list, o)) == multiset(list) + multiset{o}
    ensures forall x :: x in Enqueue(side, list, o) ==> x in list || x == o
  {
    if list != [] && Key(side, o.price) <= Key(side, list[0].price) {
      EnqueueMembers(side, list[1..], o);
      assert list == [list[0]] + list[1..];
    }
  }

  /** Queueing keeps strict price-time order: a fresh order is last among its price. */
  lemma {:induction false} EnqueueKeepsOrder(side: Direction, list: seq<LimitOrder>, o: LimitOrder)
    requires PriceTimeSorted(side, list) && forall x :: x in list ==> x.id < o.id
    ensures PriceTimeSorted(side, Enqueue(side, list, o))
  {
    if list != [] && Key(side, o.price) <= Key(side, list[0].price) {
      var rest := list[1..];
      EnqueueKeepsOrder(side, rest, o);
      EnqueueMembers(side, rest, o);
      assert forall x :: x in rest ==> Before(side, list[0], x);
      assert list[0] in list && Before(side, list[0], o);
    } else if list != [] {
      assert forall j :: 0 < j < |list| ==> Before(side, list[0], list[j]);
    }
  }

  // ---------- cancelling ----------

  lemma {:induction false} WithoutAppend(a: seq<LimitOrder>, b: seq<LimitOrder>, o: LimitOrder)
    ensures Without(a + b, o) == Without(a, o) + Without(b, o)
  {
    if a == [] {
      assert a + b == b;
    } else {
      assert (a + b)[1..] == a[1..] + b;
      WithoutAppend(a[1..], b, o);
    }
  }

  lemma {:induction false} WithoutAbsent(list: seq<LimitOrder>, o: LimitOrder)
    requires forall x :: x in list ==> !SameSlot(x, o)
    ensures Without(list, o) == list
  {
    if list != [] {
      assert list[0] in list;
      WithoutAbsent(list[1..], o);
    }
  }

  lemma {:induction false} WithoutAround(a: seq<LimitOrder>, x: seq<LimitOrder>, b: seq<LimitOrder>, o: LimitOrder)
    requires forall y :: y in a ==> !SameSlot(y, o)
    requires forall y :: y in b ==> !SameSlot(y, o)
    ensures Without(a + x + b, o) == a + Without(x, o) + b
  {
    WithoutAppend(a + x, b, o);
    WithoutAppend(a, x, o);
    WithoutAbsent(a, o);
    WithoutAbsent(b, o);
  }

  function Cancel(o: LimitOrder): LimitOrder { o.(status := Cancelled) }

  /** Cancelling one live entry takes exactly that order, and its remainder, off the list. */
  lemma {:induction false} CancelEntry(orders: seq<LimitOrder>, k: nat, o: LimitOrder)
    requires Ascending(orders) && k < |orders| && !Dead(orders[k]) && SameSlot(orders[k], o)
    ensures Live(orders[k := Cancel(orders[k])]) == Without(Live(orders), o)
    ensures Volume(Live(orders)) == Volume(Live(orders[k := Cancel(orders[k])])) + Remaining(orders[k])
    ensures |Live(orders)| == |Live(orders[k := Cancel(orders[k])])| + 1
  {
    var x := orders[k];
    var a, b := orders[..k], orders[k + 1..];
    assert orders == a + [x] + b && orders[k := Cancel(x)] == a + [Cancel(x)] + b;
    LiveAround(a, x, b);
    LiveAround(a, Cancel(x), b);
    assert Live(a) + [] + Live(b) == Live(a) + Live(b);
    LiveDistinct(a, o.id);
    LiveDistinct(b, o.id);
    WithoutAround(Live(a), [x], Live(b), o);
    assert Without([x], o) == [];
    VolumeAround(Live(a), x, Live(b));
  }

  lemma {:induction false} VolumeAround(a: seq<LimitOrder>, x: LimitOrder, b: seq<LimitOrder>)
    ensures Volume(a + [x] + b) == Volume(a + b) + Remaining(x)
  {
    VolumeAppend(a + [x], b);
    VolumeAppend(a, [x]);
    VolumeAppend(a, b);
  }

  lemma {:induction false} LiveAround(a: seq<LimitOrder>, x: LimitOrder, b: seq<LimitOrder>)
    ensures Live(a + [x] + b) == Live(a) + (if Dead(x) then [] else [x]) + Live(b)
  {
    LiveAppend(a + [x], b);
    LiveAppend(a, [x]);
    assert Live([x]) == if Dead(x) then Live([]) else [x] + Live([]);
  }

  lemma {:induction false} LiveDistinct(orders: seq<LimitOrder>, id: nat)
    requires forall i :: 0 <= i < |orders| ==> orders[i].id != id
    ensures forall x :: x in Live(orders) ==> x.id != id
  {
    forall k | 0 <= k < |Live(orders)| ensures Live(orders)[k].id != id {
      var i := LiveIsEntry(orders, k);
    }
  }

  ghost predicate LiveId(orders: seq<LimitOrder>, id: nat, k: int) {
    0 <= k < |orders| && orders[k].id == id && !Dead(orders[k])
  }

  /** Binary search by id within a level. */
  method MarkCancelled(orders: seq<LimitOrder>, id: nat) returns (orders': seq<LimitOrder>, ghost at: nat, ok: bool)
    requires Ascending(orders)
    ensures ok <==> exists k :: LiveId(orders, id, k)
    ensures ok ==> LiveId(orders, id, at) && orders' == orders[at := Cancel(orders[at])]
    ensures !ok ==> orders' == orders
  {
    orders', at := orders, 0;
    var left, right := 0, |orders|;
    while left < right
      invariant left <= right <= |orders|
      invariant forall i :: 0 <= i < left ==> orders[i].id < id
      invariant forall i :: right <= i < |orders| ==> id < orders[i].id
    {
      var mid := left + (right - left) / 2;
      if id == orders[mid].id {
        if Dead(orders[mid]) {
          return orders, 0, false;
        }
        assert LiveId(orders, id, mid);
        return orders[mid := Cancel(orders[mid])], mid, true;
      } else if id < orders[mid].id {
        right := mid;
      } else {
        left := mid + 1;
      }
    }
    return orders, 0, false;
  }

  /** The copy passed to a cancel has the size and the fills of the live order it names. */
  ghost predicate CurrentCopy(list: seq<LimitOrder>, o: LimitOrder) {
    forall x :: x in list && SameSlot(x, o) ==> x.base == o.base && x.filled == o.filled
  }

  /** The live order it names has not traded with its owner. */
  ghost predicate NoSelfFills(list: seq<LimitOrder>, o: LimitOrder) {
    forall x :: x in list && SameSlot(x, o) ==> x.selfFilled == 0
  }

  /** The other orders at the order's price. */
  function Peers(list: seq<LimitOrder>, o: LimitOrder): seq<LimitOrder> {
    if list == [] then []
    else (if list[0].price == o.price && list[0].id != o.id then [list[0]] else []) + Peers(list[1..], o)
  }

  function AtOtherPrices(list: seq<LimitOrder>, price: nat): seq<LimitOrder> {
    if list == [] then []
    else (if list[0].price != price then [list[0]] else []) + AtOtherPrices(list[1..], price)
  }

  /** The level's volume can bear the cancel: what the order traded with its owner is no more
      than what the other orders at its price have left. */
  ghost predicate CancelFits(list: seq<LimitOrder>, o: LimitOrder) {
    forall x :: x in list && SameSlot(x, o) ==> x.selfFilled <= Volume(Peers(list, o))
  }

  ghost predicate Lists(list: seq<LimitOrder>, o: LimitOrder) {
    exists x :: x in list && SameSlot(x, o)
  }

  /** The book after a cancel: exactly the named order has left the live list. */
  ghost predicate Removed(side: Direction, levels: seq<Level>, o: LimitOrder, levels': seq<Level>) {
    && BookOk(side, levels')
    && Flatten(levels') == Without(Flatten(levels), o)
    && (forall id :: FreshId(levels, id) ==> FreshId(levels', id))
    && (forall id :: HasDead(levels', id) ==> HasDead(levels, id) || id == o.id)
    && (levels' != [] ==> levels != [] && Acceptable(side, levels'[|levels'| - 1].price, levels[|levels| - 1].price))
  }

  function Marked(l: Level, k: nat, unfilled: nat): Level
    requires k < |l.orders| && unfilled <= l.volume
  {
    Level(l.price, l.volume - unfilled, l.orders[k := Cancel(l.orders[k])], l.cancelled + 1)
  }

  function Pruned(l: Level): Level { Level(l.price, l.volume, Live(l.orders), 0) }

  /** The level after a cancel: dropped when empty, pruned when sparse, or as it is. */
  function Tidied(levels: seq<Level>, m: nat, marked: Level): seq<Level>
    requires m < |levels|
  {
    if marked.volume == 0 then levels[..m] + levels[m + 1..]
    else if marked.cancelled > |marked.orders| / 2 then levels[m := Pruned(marked)]
    else levels[m := marked]
  }

  lemma {:induction false} LiveTwice(orders: seq<LimitOrder>)
    ensures Live(Live(orders)) == Live(orders)
  {
    if orders != [] {
      LiveTwice(orders[1..]);
    }
  }

  lemma {:induction false} PrunedOk(side: Direction, l: Level)
    requires LevelOk(side, l) && l.volume > 0
    ensures LevelOk(side, Pruned(l)) && Live(Pruned(l).orders) == Live(l.orders)
  {
    LiveTwice(l.orders);
    LiveSorted(side, l.price, l.orders);
  }

  lemma {:induction false} MarkedOk(side: Direction, l: Level, k: nat, o: LimitOrder)
    requires LevelOk(side, l) && k < |l.orders| && !Dead(l.orders[k]) && SameSlot(l.orders[k], o)
    ensures Remaining(l.orders[k]) <= l.volume
    ensures LevelOk(side, Marked(l, k, Remaining(l.orders[k])))
    ensures Live(Marked(l, k, Remaining(l.orders[k])).orders) == Without(Live(l.orders), o)
  {
    CancelEntry(l.orders, k, o);
  }

  /** Replacing one level by an equally priced one (or dropping it) edits the flattened
      list only there. */
  lemma {:induction false} RemovedList(
    side: Direction, levels: seq<Level>, m: nat, o: LimitOrder, l': seq<Level>)
    requires BookOk(side, levels) && m < |levels| && levels[m].price == o.price
    requires |l'| <= 1 && Flatten(l') == Without(Live(levels[m].orders), o)
    ensures Flatten(levels[..m] + l' + levels[m + 1..]) == Without(Flatten(levels), o)
  {
    var a, l, b := levels[..m], levels[m], levels[m + 1..];
    assert levels == a + [l] + b;
    SplitKeys(side, levels, m, m + 1, Key(side, o.price));
    FlattenAround(a, l, b);
    FlattenAppend(a + l', b);
    FlattenAppend(a, l');
    WithoutAround(Flatten(b), Live(l.orders), Flatten(a), o);
  }

  /** A level may be replaced by an equally priced well-formed one whose entries are old
      entries, with at most the id `o.id` newly dead. */
  lemma {:induction false} ReplacedIds(levels: seq<Level>, m: nat, l': Level, id': nat)
    requires m < |levels|
    requires forall j :: 0 <= j < |l'.orders| ==>
      exists k :: 0 <= k < |levels[m].orders| && OldEntry(levels[m].orders[k], l'.orders[j], id')
    ensures forall id :: FreshId(levels, id) ==> FreshId(levels[m := l'], id)
    ensures forall id :: HasDead(levels[m := l'], id) ==> HasDead(levels, id) || id == id'
  {
    var levels' := levels[m := l'];
    forall id | FreshId(levels, id) ensures FreshId(levels', id) {
      forall i, j | 0 <= i < |levels'| && 0 <= j < |levels'[i].orders| ensures levels'[i].orders[j].id < id {
        if i == m {
          assert levels'[i].orders[j] == l'.orders[j];
          var k :| 0 <= k < |levels[m].orders| && OldEntry(levels[m].orders[k], l'.orders[j], id');
        }
      }
    }
    forall id | HasDead(levels', id) ensures HasDead(levels, id) || id == id' {
      var i, j :| 0 <= i < |levels'| && 0 <= j < |levels'[i].orders| && EntryIs(levels'[i].orders[j], id, true);
      if i == m {
        var k :| 0 <= k < |levels[m].orders| && OldEntry(levels[m].orders[k], l'.orders[j], id');
        assert id == id' || EntryIs(levels[m].orders[k], id, true);
      } else {
        assert EntryIs(levels[i].orders[j], id, true);
      }
    }
  }

  ghost predicate OldEntry(old_: LimitOrder, new_: LimitOrder, id': nat) {
    old_.id == new_.id && (Dead(new_) ==> Dead(old_) || new_.id == id')
  }

  lemma {:induction false} DroppedIds(levels: seq<Level>, m: nat)
    requires m < |levels|
    ensures forall id :: FreshId(levels, id) ==> FreshId(levels[..m] + levels[m + 1..], id)
    ensures forall id :: HasDead(levels[..m] + levels[m + 1..], id) ==> HasDead(levels, id)
  {
    var levels' := levels[..m] + levels[m + 1..];
    assert forall i :: 0 <= i < |levels'| ==> levels'[i] == levels[if i < m then i else i + 1];
    forall id | HasDead(levels', id) ensures HasDead(levels, id) {
      var i, j :| 0 <= i < |levels'| && 0 <= j < |levels'[i].orders| && EntryIs(levels'[i].orders[j], id, true);
      assert EntryIs(levels[if i < m then i else i + 1].orders[j], id, true);
    }
  }

  lemma {:induction false} LastOneCancelled(side: Direction, l: Level, k: nat, o: LimitOrder)
    requires LevelOk(side, l) && l.price == o.price && LiveId(l.orders, o.id, k) && l.volume == Remaining(l.orders[k])
    ensures Without(Live(l.orders), o) == []
  {
    MarkedOk(side, l, k, o);
    LiveSorted(side, l.price, Marked(l, k, l.volume).orders);
    assert Volume(Without(Live(l.orders), o)) == 0;
  }

  lemma {:induction false} DroppedOk(side: Direction, levels: seq<Level>, m: nat, k: nat, o: LimitOrder)
    requires BookOk(side, levels) && m < |levels| && levels[m].price == o.price
    requires k < |levels[m].orders| && LiveId(levels[m].orders, o.id, k)
    requires levels[m].volume == Remaining(levels[m].orders[k])
    ensures Removed(side, levels, o, levels[..m] + levels[m + 1..])
  {
    assert LevelOk(side, levels[m]);
    LastOneCancelled(side, levels[m], k, o);
    RemovedList(side, levels, m, o, []);
    assert levels[..m] + [] + levels[m + 1..] == levels[..m] + levels[m + 1..];
    DroppedIds(levels, m);
  }

  lemma {:induction false} ReplacedOk(side: Direction, levels: seq<Level>, m: nat, o: LimitOrder, l': Level)
    requires BookOk(side, levels) && m < |levels| && levels[m].price == o.price
    requires LevelOk(side, l') && l'.price == o.price && Live(l'.orders) == Without(Live(levels[m].orders), o)
    requires forall j :: 0 <= j < |l'.orders| ==>
      exists k :: 0 <= k < |levels[m].orders| && OldEntry(levels[m].orders[k], l'.orders[j], o.id)
    ensures Removed(side, levels, o, levels[m := l']) == true
  {
    KeptLevelList(side, levels, m, o, l');
    ReplacedIds(levels, m, l', o.id);
    ReplacedBook(side, levels, m, l');
  }

  lemma {:induction false} ReplacedBook(side: Direction, levels: seq<Level>, m: nat, l': Level)
    requires BookOk(side, levels) && m < |levels| && LevelOk(side, l') && l'.price == levels[m].price
    ensures BookOk(side, levels[m := l']) == true
    ensures Acceptable(side, levels[m := l'][|levels| - 1].price, levels[|levels| - 1].price)
  {
    var levels' := levels[m := l'];
    forall i | 0 <= i < |levels'| ensures LevelOk(side, levels'[i]) {
      assert i != m ==> LevelOk(side, levels[i]);
    }
  }

  lemma {:induction false} MarkedEntries(l: Level, k: nat, u: nat, id: nat)
    requires k < |l.orders| && l.orders[k].id == id && u <= l.volume
    ensures forall j :: 0 <= j < |Marked(l, k, u).orders| ==>
      exists i :: 0 <= i < |l.orders| && OldEntry(l.orders[i], Marked(l, k, u).orders[j], id)
    ensures forall j :: 0 <= j < |Pruned(Marked(l, k, u)).orders| ==>
      exists i :: 0 <= i < |l.orders| && OldEntry(l.orders[i], Pruned(Marked(l, k, u)).orders[j], id)
  {
    var marked := Marked(l, k, u).orders;
    forall j | 0 <= j < |marked| ensures exists i :: 0 <= i < |l.orders| && OldEntry(l.orders[i], marked[j], id) {
      assert OldEntry(l.orders[j], marked[j], id);
    }
    forall j | 0 <= j < |Live(marked)|
      ensures exists i :: 0 <= i < |l.orders| && OldEntry(l.orders[i], Live(marked)[j], id)
    {
      var i := LiveIsEntry(marked, j);
      assert OldEntry(l.orders[i], Live(marked)[j], id);
    }
  }

  lemma {:induction false} ListedAt(side: Direction, levels: seq<Level>, m: nat, o: LimitOrder)
    requires BookOk(side, levels) && m < |levels| && levels[m].price == o.price
    ensures Lists(Flatten(levels), o) <==> exists k :: LiveId(levels[m].orders, o.id, k)
    ensures forall k :: LiveId(levels[m].orders, o.id, k) ==>
      levels[m].orders[k] in Flatten(levels) && SameSlot(levels[m].orders[k], o)
  {
    if Lists(Flatten(levels), o) {
      var x :| x in Flatten(levels) && SameSlot(x, o);
      var n :| 0 <= n < |Flatten(levels)| && Flatten(levels)[n] == x;
      var i, j := FlattenIsEntry(levels, n);
      assert LevelOk(side, levels[i]);
      assert Key(side, levels[i].price) == Key(side, levels[m].price);
      assert i == m;
      assert LiveId(levels[m].orders, o.id, j);
    }
    forall k | LiveId(levels[m].orders, o.id, k)
      ensures levels[m].orders[k] in Flatten(levels) && SameSlot(levels[m].orders[k], o)
    {
      assert LevelOk(side, levels[m]);
      EntryInFlatten(levels, m, k);
    }
  }

  lemma {:induction false} UnlistedPrice(side: Direction, levels: seq<Level>, m: nat, o: LimitOrder)
    requires BookOk(side, levels) && m <= |levels|
    requires forall i :: 0 <= i < m ==> Key(side, levels[i].price) < Key(side, o.price)
    requires forall i :: m <= i < |levels| ==> Key(side, o.price) < Key(side, levels[i].price)
    ensures !Lists(Flatten(levels), o)
  {
    SplitKeys(side, levels, m, m, Key(side, o.price));
    assert levels == levels[..m] + levels[m..];
    FlattenAppend(levels[..m], levels[m..]);
  }

  /** The book as a cancel leaves it: the named order marked in its level, its whole unfilled
      size off the level's volume, and the level then dropped, pruned or kept. */
  ghost predicate Withdrawn(levels: seq<Level>, o: LimitOrder, levels': seq<Level>) {
    exists m, k :: WithdrawnAt(levels, o, m, k, levels')
  }

  ghost predicate WithdrawnAt(levels: seq<Level>, o: LimitOrder, m: int, k: int, levels': seq<Level>) {
    && 0 <= m < |levels| && levels[m].price == o.price && LiveId(levels[m].orders, o.id, k)
    && o.base - o.filled <= levels[m].volume
    && levels' == Tidied(levels, m, Marked(levels[m], k, o.base - o.filled))
  }

  /** Two nested binary searches, a lazy mark, and a prune or a removal of the level. */
  method CancelOrder(side: Direction, levels: seq<Level>, o: LimitOrder) returns (levels': seq<Level>, unfilled: nat)
    requires BookOk(side, levels) && CurrentCopy(Flatten(levels), o) && CancelFits(Flatten(levels), o)
    ensures Lists(Flatten(levels), o) ==> unfilled == o.base - o.filled && Withdrawn(levels, o, levels') == true
    ensures Lists(Flatten(levels), o) && NoSelfFills(Flatten(levels), o) ==>
      && Removed(side, levels, o, levels') == true
      && forall x :: x in Flatten(levels) && SameSlot(x, o) ==> unfilled == Remaining(x) > 0
    ensures !Lists(Flatten(levels), o) ==> levels' == levels && unfilled == 0
    ensures !Lists(Flatten(levels'), o)
  {
    levels', unfilled := levels, 0;
    var left, right := 0, |levels|;
    while left < right
      invariant left <= right <= |levels|
      invariant forall i :: 0 <= i < left ==> Key(side, levels[i].price) < Key(side, o.price)
      invariant forall i :: right <= i < |levels| ==> Key(side, o.price) < Key(side, levels[i].price)
    {
      var mid := left + (right - left) / 2;
      if o.price == levels[mid].price {
        levels', unfilled := CancelInLevel(side, levels, mid, o);
        return;
      } else if Key(side, o.price) < Key(side, levels[mid].price) {
        right := mid;
      } else {
        left := mid + 1;
      }
    }
    UnlistedPrice(side, levels, left, o);
  }

  /** The outcome of a cancel, for an order that is live and for one that is not. */
  ghost predicate CancelledAs(side: Direction, levels: seq<Level>, o: LimitOrder, levels': seq<Level>, unfilled: nat) {
    && (if Lists(Flatten(levels), o) then
          && unfilled == o.base - o.filled && Withdrawn(levels, o, levels')
          && (NoSelfFills(Flatten(levels), o) ==>
                && Removed(side, levels, o, levels')
                && forall x :: x in Flatten(levels) && SameSlot(x, o) ==> unfilled == Remaining(x) > 0)
        else levels' == levels && unfilled == 0)
    && !Lists(Flatten(levels'), o)
  }

  /** The part of a cancel that runs once the level has been found. */
  method CancelInLevel(side: Direction, levels: seq<Level>, mid: nat, o: LimitOrder)
    returns (levels': seq<Level>, unfilled: nat)
    requires BookOk(side, levels) == true && CurrentCopy(Flatten(levels), o) == true
      && CancelFits(Flatten(levels), o) == true
    requires mid < |levels| && levels[mid].price == o.price
    ensures CancelledAs(side, levels, o, levels', unfilled) == true
  {
    var l := levels[mid];
    LevelAscending(side, levels, mid);
    var orders, at, ok := MarkCancelled(l.orders, o.id);
    if !ok {
      NotLive(side, levels, mid, o);
      return levels, 0;
    }
    unfilled := o.base - o.filled;
    FitsInLevel(side, levels, mid, at, o);
    levels' := TidyLevel(levels, mid, Level(l.price, l.volume - unfilled, orders, l.cancelled + 1));
    CancelDone(side, levels, mid, at, o, levels');
  }

  /** Drop the level when it is empty, prune it when more than half of it is cancelled. */
  method TidyLevel(levels: seq<Level>, mid: nat, marked: Level) returns (levels': seq<Level>)
    requires mid < |levels|
    ensures levels' == Tidied(levels, mid, marked)
  {
    if marked.volume == 0 {
      levels' := levels[..mid] + levels[mid + 1..];
    } else if marked.cancelled > |marked.orders| / 2 {
      levels' := levels[mid := Level(marked.price, marked.volume, Live(marked.orders), 0)];
    } else {
      levels' := levels[mid := marked];
    }
  }

  lemma {:induction false} NotLive(side: Direction, levels: seq<Level>, m: nat, o: LimitOrder)
    requires BookOk(side, levels) && m < |levels| && levels[m].price == o.price
    requires forall k :: !LiveId(levels[m].orders, o.id, k)
    ensures CancelledAs(side, levels, o, levels, 0) == true
  {
    ListedAt(side, levels, m, o);
  }

  lemma {:induction false} LevelAscending(side: Direction, levels: seq<Level>, m: nat)
    requires BookOk(side, levels) && m < |levels|
    ensures Ascending(levels[m].orders)
  {
    assert LevelOk(side, levels[m]);
  }

  lemma {:induction false} FitsInLevel(side: Direction, levels: seq<Level>, m: nat, k: nat, o: LimitOrder)
    requires BookOk(side, levels) && CurrentCopy(Flatten(levels), o) && CancelFits(Flatten(levels), o)
    requires m < |levels| && levels[m].price == o.price && LiveId(levels[m].orders, o.id, k)
    ensures o.base - o.filled <= levels[m].volume
  {
    ListedAt(side, levels, m, o);
    CancelVolumes(side, levels, m, k, o);
  }

  lemma {:induction false} CancelDone(
      side: Direction, levels: seq<Level>, m: nat, k: nat, o: LimitOrder, levels': seq<Level>)
    requires BookOk(side, levels) == true && CurrentCopy(Flatten(levels), o) == true
    requires WithdrawnAt(levels, o, m, k, levels') == true
    ensures CancelledAs(side, levels, o, levels', o.base - o.filled) == true
  {
    ListedAt(side, levels, m, o);
    assert !Lists(Flatten(levels'), o) by {
      CancelledList(side, levels, m, k, o, levels');
      NotListedAfter(Flatten(levels), o);
    }
    if NoSelfFills(Flatten(levels), o) {
      CancelRemoves(side, levels, m, k, o, levels');
      OneSlot(side, levels, o, levels[m].orders[k]);
    }
  }

  lemma {:induction false} NotListedAfter(list: seq<LimitOrder>, o: LimitOrder)
    ensures !Lists(AtOtherPrices(list, o.price), o) && !Lists(Without(list, o), o)
  {
    GonePrice(list, o);
    WithoutGone(list, o);
  }

  /** Whichever of its three endings a cancel takes, only the named order goes, if it never
      traded with its owner. */
  lemma {:induction false} CancelRemoves(
      side: Direction, levels: seq<Level>, m: nat, k: nat, o: LimitOrder, levels': seq<Level>)
    requires BookOk(side, levels) == true && CurrentCopy(Flatten(levels), o) == true
      && NoSelfFills(Flatten(levels), o) == true
    requires WithdrawnAt(levels, o, m, k, levels') == true
    ensures Removed(side, levels, o, levels') == true
  {
    var l, u := levels[m], o.base - o.filled;
    assert Remaining(l.orders[k]) == u by {
      ListedAt(side, levels, m, o);
      assert l.orders[k] in Flatten(levels);
    }
    MarkedFits(side, levels, m, k, o);
    if Marked(l, k, u).volume == 0 {
      DroppedOk(side, levels, m, k, o);
    } else {
      MarkedEntries(l, k, u, o.id);
      ReplacedOk(side, levels, m, o, levels'[m]);
    }
  }

  /** A level that stays is pruned of its cancelled entries exactly if they are more than half of
      it; so after a cancel they are never more than half. The other levels stand. */
  lemma {:induction false} PruneIff(
      side: Direction, levels: seq<Level>, m: nat, k: nat, o: LimitOrder, levels': seq<Level>)
    requires BookOk(side, levels) && WithdrawnAt(levels, o, m, k, levels') && o.base - o.filled < levels[m].volume
    ensures |levels'| == |levels| && forall i :: 0 <= i < |levels| && i != m ==> levels'[i] == levels[i]
    ensures var all := |levels[m].orders|;
      var dead := all - |Live(levels[m].orders)| + 1;
      && (2 * dead > all ==> levels'[m].cancelled == 0 && |levels'[m].orders| == all - dead)
      && (2 * dead <= all ==> levels'[m].cancelled == dead && |levels'[m].orders| == all)
    ensures forall j :: 0 <= j < |levels'[m].orders| && levels'[m].cancelled == 0 ==> !Dead(levels'[m].orders[j])
    ensures 2 * levels'[m].cancelled <= |levels'[m].orders|
  {
    var l := levels[m];
    var marked := Marked(l, k, o.base - o.filled);
    assert LevelOk(side, l);
    CancelEntry(l.orders, k, l.orders[k]);
    forall j | 0 <= j < |Live(marked.orders)| ensures !Dead(Live(marked.orders)[j]) {
      var i := LiveIsEntry(marked.orders, j);
    }
  }

  /** A cancel of an order that never traded with its owner removes exactly it. */
  lemma {:induction false} WithdrawnExact(side: Direction, levels: seq<Level>, o: LimitOrder, levels': seq<Level>)
    requires BookOk(side, levels) == true && CurrentCopy(Flatten(levels), o) == true
      && NoSelfFills(Flatten(levels), o) == true
    requires Withdrawn(levels, o, levels')
    ensures Removed(side, levels, o, levels') == true
  {
    var m, k :| WithdrawnAt(levels, o, m, k, levels');
    CancelRemoves(side, levels, m, k, o, levels');
  }

  // ---------- cancelling an order that traded with its owner ----------

  lemma {:induction false} PeersAppend(a: seq<LimitOrder>, b: seq<LimitOrder>, o: LimitOrder)
    ensures Peers(a + b, o) == Peers(a, o) + Peers(b, o)
    ensures AtOtherPrices(a + b, o.price) == AtOtherPrices(a, o.price) + AtOtherPrices(b, o.price)
  {
    if a == [] {
      assert a + b == b;
    } else {
      assert (a + b)[1..] == a[1..] + b;
      PeersAppend(a[1..], b, o);
    }
  }

  lemma {:induction false} PeersElsewhere(list: seq<LimitOrder>, o: LimitOrder)
    requires forall x :: x in list ==> x.price != o.price
    ensures Peers(list, o) == [] && AtOtherPrices(list, o.price) == list
  {
    if list != [] {
      assert list[0] in list;
      PeersElsewhere(list[1..], o);
    }
  }

  lemma {:induction false} PeersHere(list: seq<LimitOrder>, o: LimitOrder)
    requires forall x :: x in list ==> x.price == o.price
    ensures Peers(list, o) == Without(list, o) && AtOtherPrices(list, o.price) == []
  {
    if list != [] {
      assert list[0] in list;
      PeersHere(list[1..], o);
    }
  }

  lemma {:induction false} GonePrice(list: seq<LimitOrder>, o: LimitOrder)
    ensures forall x :: x in AtOtherPrices(list, o.price) <==> x in list && x.price != o.price
  {
    if list != [] {
      GonePrice(list[1..], o);
    }
  }

  /** The orders at one price are the live entries of its level. */
  lemma {:induction false} PeersOfLevel(side: Direction, levels: seq<Level>, m: nat, o: LimitOrder)
    requires BookOk(side, levels) == true && m < |levels| && levels[m].price == o.price
    ensures Peers(Flatten(levels), o) == Without(Live(levels[m].orders), o)
    ensures AtOtherPrices(Flatten(levels), o.price) == Flatten(levels[..m] + levels[m + 1..])
  {
    var a, l, b := levels[..m], levels[m], levels[m + 1..];
    var hi, live, lo := Flatten(b), Live(l.orders), Flatten(a);
    assert levels == a + [l] + b;
    SplitKeys(side, levels, m, m + 1, Key(side, o.price));
    assert LevelOk(side, l);
    LiveSorted(side, l.price, l.orders);
    FlattenAround(a, l, b);
    FlattenAppend(a, b);
    PeersAround(hi, live, lo, o);
  }

  lemma {:induction false} PeersAround(hi: seq<LimitOrder>, live: seq<LimitOrder>, lo: seq<LimitOrder>, o: LimitOrder)
    requires forall x :: x in hi ==> x.price != o.price
    requires forall x :: x in live ==> x.price == o.price
    requires forall x :: x in lo ==> x.price != o.price
    ensures Peers(hi + live + lo, o) == Without(live, o)
    ensures AtOtherPrices(hi + live + lo, o.price) == hi + lo
  {
    PeersElsewhere(hi, o);
    PeersElsewhere(lo, o);
    PeersHere(live, o);
    PeersThree(hi, live, lo, o);
    NothingAround(Without(live, o));
    NothingBetween(hi, lo);
  }

  lemma {:induction false} PeersThree(hi: seq<LimitOrder>, live: seq<LimitOrder>, lo: seq<LimitOrder>, o: LimitOrder)
    ensures Peers(hi + live + lo, o) == Peers(hi, o) + Peers(live, o) + Peers(lo, o)
    ensures AtOtherPrices(hi + live + lo, o.price)
         == AtOtherPrices(hi, o.price) + AtOtherPrices(live, o.price) + AtOtherPrices(lo, o.price)
  {
    PeersAppend(hi + live, lo, o);
    PeersAppend(hi, live, o);
  }

  lemma {:induction false} NothingAround(s: seq<LimitOrder>)
    ensures [] + s + [] == s
  {
  }

  lemma {:induction false} NothingBetween(a: seq<LimitOrder>, b: seq<LimitOrder>)
    ensures a + [] + b == a + b
  {
  }

  /** The level's volume after the mark, in terms of the other orders at the price. */
  lemma {:induction false} CancelVolumes(side: Direction, levels: seq<Level>, m: nat, k: nat, o: LimitOrder)
    requires BookOk(side, levels) == true && m < |levels| && levels[m].price == o.price
      && LiveId(levels[m].orders, o.id, k)
    ensures var l, x := levels[m], levels[m].orders[k];
      && l.volume == Remaining(x) + Volume(Peers(Flatten(levels), o))
      && Live(l.orders[k := Cancel(x)]) == Peers(Flatten(levels), o)
  {
    assert LevelOk(side, levels[m]);
    PeersOfLevel(side, levels, m, o);
    CancelEntry(levels[m].orders, k, o);
  }

  /** What is left of the price-time list, for any cancel that does not underflow. */
  lemma {:induction false} CancelledList(
      side: Direction, levels: seq<Level>, m: nat, k: nat, o: LimitOrder, levels': seq<Level>)
    requires BookOk(side, levels) == true && CurrentCopy(Flatten(levels), o) == true
    requires WithdrawnAt(levels, o, m, k, levels') == true
    ensures var list, x := Flatten(levels), levels[m].orders[k];
      Flatten(levels') == if Volume(Peers(list, o)) == x.selfFilled then AtOtherPrices(list, o.price)
          else Without(list, o)
  {
    var marked := Marked(levels[m], k, o.base - o.filled);
    CancelSizes(side, levels, m, k, o);
    PeersOfLevel(side, levels, m, o);
    if marked.volume > 0 {
      LiveTwice(marked.orders);
      KeptLevelList(side, levels, m, o, levels'[m]);
    }
  }

  lemma {:induction false} CancelSizes(side: Direction, levels: seq<Level>, m: nat, k: nat, o: LimitOrder)
    requires BookOk(side, levels) == true && CurrentCopy(Flatten(levels), o) == true
    requires m < |levels| && levels[m].price == o.price && LiveId(levels[m].orders, o.id, k)
    ensures var l, x := levels[m], levels[m].orders[k];
      && o.base - o.filled == Remaining(x) + x.selfFilled
      && l.volume == Remaining(x) + Volume(Peers(Flatten(levels), o))
      && Live(l.orders[k := Cancel(x)]) == Peers(Flatten(levels), o)
  {
    ListedAt(side, levels, m, o);
    CancelVolumes(side, levels, m, k, o);
  }

  lemma {:induction false} KeptLevelList(side: Direction, levels: seq<Level>, m: nat, o: LimitOrder, l': Level)
    requires BookOk(side, levels) == true && m < |levels| && levels[m].price == o.price
    requires Live(l'.orders) == Without(Live(levels[m].orders), o)
    ensures Flatten(levels[m := l']) == Without(Flatten(levels), o)
  {
    assert [l'][..0] == [];
    assert Flatten([l']) == Live(l'.orders) + Flatten([]);
    RemovedList(side, levels, m, o, [l']);
    assert levels[..m] + [l'] + levels[m + 1..] == levels[m := l'];
  }

  /** Exactly what a cancel does to a live order `x`, given what the others at its price have
      left. The level's volume underflows if `x` traded more than that with its owner; if
      exactly that, the level goes, and every order in it; otherwise only `x` goes, but the
      volume falls short by what `x` traded with its owner. */
  lemma {:induction false} CancelOutcomes(side: Direction, levels: seq<Level>, m: nat, k: nat, o: LimitOrder)
    requires BookOk(side, levels) == true && CurrentCopy(Flatten(levels), o) == true
    requires m < |levels| && levels[m].price == o.price && LiveId(levels[m].orders, o.id, k)
    ensures var x, list := levels[m].orders[k], Flatten(levels);
      var others := Volume(Peers(list, o));
      && (levels[m].volume < o.base - o.filled <==> others < x.selfFilled)
      && (others >= x.selfFilled ==>
            var levels' := Tidied(levels, m, Marked(levels[m], k, o.base - o.filled));
            && Flatten(levels') == (if others == x.selfFilled then AtOtherPrices(list, o.price) else Without(list, o))
            && (BookOk(side, levels') <==> x.selfFilled == 0 || others == x.selfFilled)
            && (others > x.selfFilled ==>
                  |levels'| == |levels| && levels'[m].volume + x.selfFilled == Volume(Live(levels'[m].orders))))
  {
    var x := levels[m].orders[k];
    CancelSizes(side, levels, m, k, o);
    if Volume(Peers(Flatten(levels), o)) >= x.selfFilled {
      var levels' := Tidied(levels, m, Marked(levels[m], k, o.base - o.filled));
      CancelledList(side, levels, m, k, o, levels');
      CancelledBook(side, levels, m, k, o, levels');
    }
  }

  lemma {:induction false} CancelledBook(
      side: Direction, levels: seq<Level>, m: nat, k: nat, o: LimitOrder, levels': seq<Level>)
    requires BookOk(side, levels) == true && CurrentCopy(Flatten(levels), o) == true
    requires WithdrawnAt(levels, o, m, k, levels') == true
    ensures var x, others := levels[m].orders[k], Volume(Peers(Flatten(levels), o));
      && (BookOk(side, levels') <==> x.selfFilled == 0 || others == x.selfFilled)
      && (others > x.selfFilled ==>
            |levels'| == |levels| && levels'[m].volume + x.selfFilled == Volume(Live(levels'[m].orders)))
  {
    var x, others := levels[m].orders[k], Volume(Peers(Flatten(levels), o));
    CancelSizes(side, levels, m, k, o);
    var marked := Marked(levels[m], k, o.base - o.filled);
    LiveTwice(marked.orders);
    if others == x.selfFilled {
      DroppedLevelOk(side, levels, m);
    } else if x.selfFilled == 0 {
      OnlyOne(side, levels, m, k, o);
      CancelRemoves(side, levels, m, k, o, levels');
    } else {
      assert !LevelOk(side, levels'[m]);
    }
  }

  lemma {:induction false} OnlyOne(side: Direction, levels: seq<Level>, m: nat, k: nat, o: LimitOrder)
    requires BookOk(side, levels) && m < |levels| && levels[m].price == o.price && LiveId(levels[m].orders, o.id, k)
    requires levels[m].orders[k].selfFilled == 0
    ensures NoSelfFills(Flatten(levels), o)
  {
    ListedAt(side, levels, m, o);
    OneSlot(side, levels, o, levels[m].orders[k]);
  }

  lemma {:induction false} DroppedLevelOk(side: Direction, levels: seq<Level>, m: nat)
    requires BookOk(side, levels) && m < |levels|
    ensures BookOk(side, levels[..m] + levels[m + 1..])
  {
    var levels' := levels[..m] + levels[m + 1..];
    assert forall i :: 0 <= i < |levels'| ==> levels'[i] == levels[if i < m then i else i + 1];
    forall i | 0 <= i < |levels'| ensures LevelOk(side, levels'[i]) {
      assert LevelOk(side, levels[if i < m then i else i + 1]);
    }
  }

  /** The order never traded with its owner, or traded exactly what the others at its price
      have left. */
  ghost predicate CancelSafe(list: seq<LimitOrder>, o: LimitOrder) {
    forall x :: x in list && SameSlot(x, o) ==> x.selfFilled == 0 || x.selfFilled == Volume(Peers(list, o))
  }

  /** The named order has left the book, possibly with others, and nothing is new. */
  ghost predicate Thinned(side: Direction, levels: seq<Level>, o: LimitOrder, levels': seq<Level>) {
    && BookOk(side, levels')
    && (forall x :: x in Flatten(levels') ==> x in Flatten(levels) && !SameSlot(x, o))
    && (forall id :: FreshId(levels, id) ==> FreshId(levels', id))
    && (forall id :: HasDead(levels', id) ==> HasDead(levels, id) || id == o.id)
    && (levels' != [] ==> levels != [] && Acceptable(side, levels'[|levels'| - 1].price, levels[|levels| - 1].price))
  }

  /** What every cancel that does not underflow keeps, whatever becomes of volumes: no live
      order and no id is new, the named order is gone, and no other entry is newly cancelled. */
  ghost predicate Shrunk(levels: seq<Level>, o: LimitOrder, levels': seq<Level>) {
    && (forall x :: x in Flatten(levels') ==> x in Flatten(levels) && !SameSlot(x, o))
    && (forall id :: FreshId(levels, id) ==> FreshId(levels', id))
    && (forall id :: HasDead(levels', id) ==> HasDead(levels, id) || id == o.id)
  }

  lemma {:induction false} WithdrawnShrinks(side: Direction, levels: seq<Level>, o: LimitOrder, levels': seq<Level>)
    requires BookOk(side, levels) == true && CurrentCopy(Flatten(levels), o) == true && Withdrawn(levels, o, levels')
    ensures Shrunk(levels, o, levels') == true
  {
    var m, k :| WithdrawnAt(levels, o, m, k, levels');
    CancelledList(side, levels, m, k, o, levels');
    ShrunkList(Flatten(levels), o, Flatten(levels'));
    ShrunkIds(levels, m, k, o, levels');
  }

  lemma {:induction false} ShrunkIds(levels: seq<Level>, m: nat, k: nat, o: LimitOrder, levels': seq<Level>)
    requires WithdrawnAt(levels, o, m, k, levels')
    ensures forall id :: FreshId(levels, id) ==> FreshId(levels', id)
    ensures forall id :: HasDead(levels', id) ==> HasDead(levels, id) || id == o.id
  {
    var l, u := levels[m], o.base - o.filled;
    if Marked(l, k, u).volume == 0 {
      DroppedIds(levels, m);
    } else {
      MarkedEntries(l, k, u, o.id);
      ReplacedIds(levels, m, levels'[m], o.id);
    }
  }

  lemma {:induction false} ShrunkList(list: seq<LimitOrder>, o: LimitOrder, list': seq<LimitOrder>)
    requires list' == AtOtherPrices(list, o.price) || list' == Without(list, o)
    ensures forall x :: x in list' ==> x in list && !SameSlot(x, o)
  {
    GonePrice(list, o);
    WithoutGone(list, o);
  }

  lemma {:induction false} RemovedThins(side: Direction, levels: seq<Level>, o: LimitOrder, levels': seq<Level>)
    requires Removed(side, levels, o, levels')
    ensures Thinned(side, levels, o, levels') == true
  {
    WithoutGone(Flatten(levels), o);
    forall x | x in Flatten(levels') ensures x in Flatten(levels) && !SameSlot(x, o) {
      assert x in Without(Flatten(levels), o);
    }
  }

  lemma {:induction false} DroppedThins(side: Direction, levels: seq<Level>, m: nat, o: LimitOrder)
    requires BookOk(side, levels) == true && m < |levels| && levels[m].price == o.price
    ensures Thinned(side, levels, o, levels[..m] + levels[m + 1..]) == true
  {
    var levels' := levels[..m] + levels[m + 1..];
    DroppedLevelOk(side, levels, m);
    DroppedIds(levels, m);
    PeersOfLevel(side, levels, m, o);
    GonePrice(Flatten(levels), o);
    DroppedTop(side, levels, m);
  }

  lemma {:induction false} DroppedTop(side: Direction, levels: seq<Level>, m: nat)
    requires BookOk(side, levels) && m < |levels|
    ensures var levels' := levels[..m] + levels[m + 1..];
      levels' != [] ==> Acceptable(side, levels'[|levels'| - 1].price, levels[|levels| - 1].price)
  {
    var n := |levels| - 1;
    if m == n && n > 0 {
      assert Key(side, levels[n - 1].price) < Key(side, levels[n].price);
    }
  }

  /** A cancel leaves a well-formed book exactly if it is safe. */
  lemma {:induction false} WithdrawnOkIff(side: Direction, levels: seq<Level>, o: LimitOrder, levels': seq<Level>)
    requires BookOk(side, levels) == true && CurrentCopy(Flatten(levels), o) == true && Withdrawn(levels, o, levels')
    ensures BookOk(side, levels') == CancelSafe(Flatten(levels), o)
    ensures CancelSafe(Flatten(levels), o) ==> Thinned(side, levels, o, levels') == true
  {
    var m, k :| WithdrawnAt(levels, o, m, k, levels');
    var x := levels[m].orders[k];
    SafeIs(side, levels, m, k, o);
    CancelledBook(side, levels, m, k, o, levels');
    if x.selfFilled == 0 {
      OnlyOne(side, levels, m, k, o);
      CancelRemoves(side, levels, m, k, o, levels');
      RemovedThins(side, levels, o, levels');
    } else if x.selfFilled == Volume(Peers(Flatten(levels), o)) {
      CancelSizes(side, levels, m, k, o);
      DroppedThins(side, levels, m, o);
    }
  }

  lemma {:induction false} SafeIs(side: Direction, levels: seq<Level>, m: nat, k: nat, o: LimitOrder)
    requires BookOk(side, levels) && m < |levels| && levels[m].price == o.price && LiveId(levels[m].orders, o.id, k)
    ensures var x := levels[m].orders[k];
      CancelSafe(Flatten(levels), o) == (x.selfFilled == 0 || x.selfFilled == Volume(Peers(Flatten(levels), o)))
  {
    ListedAt(side, levels, m, o);
    OneSlot(side, levels, o, levels[m].orders[k]);
  }

  lemma {:induction false} MarkedFits(side: Direction, levels: seq<Level>, m: nat, k: nat, o: LimitOrder)
    requires BookOk(side, levels) && m < |levels| && levels[m].price == o.price && LiveId(levels[m].orders, o.id, k)
    ensures var l, u := levels[m], Remaining(levels[m].orders[k]);
      && u <= l.volume && LevelOk(side, Marked(l, k, u)) == true
      && Live(Marked(l, k, u).orders) == Without(Live(l.orders), o)
      && (u < l.volume ==> LevelOk(side, Pruned(Marked(l, k, u))) == true
                           && Live(Pruned(Marked(l, k, u)).orders) == Without(Live(l.orders), o))
  {
    assert LevelOk(side, levels[m]);
    var l, u := levels[m], Remaining(levels[m].orders[k]);
    MarkedOk(side, l, k, o);
    if u < l.volume {
      PrunedOk(side, Marked(l, k, u));
    }
  }

  /** At most one live order has a given price and id, and it has something left. */
  lemma {:induction false} OneSlot(side: Direction, levels: seq<Level>, o: LimitOrder, x: LimitOrder)
    requires BookOk(side, levels) && x in Flatten(levels) && SameSlot(x, o)
    ensures Remaining(x) > 0
    ensures forall y :: y in Flatten(levels) && SameSlot(y, o) ==> y == x
  {
    FlattenSorted(side, levels);
    var list := Flatten(levels);
    var i :| 0 <= i < |list| && list[i] == x;
    forall j | 0 <= j < |list| && SameSlot(list[j], o) ensures list[j] == x {
      assert i < j ==> Before(side, list[i], list[j]);
      assert j < i ==> Before(side, list[j], list[i]);
    }
  }

  lemma {:induction false} WithoutGone(list: seq<LimitOrder>, o: LimitOrder)
    ensures !Lists(Without(list, o), o)
    ensures forall x :: x in Without(list, o) ==> x in list
    ensures forall x :: x in list && !SameSlot(x, o) ==> x in Without(list, o)
  {
    if list != [] {
      WithoutGone(list[1..], o);
    }
  }
}
