/** The priority mempool: queued transactions, ready buckets and their counters. */
module Mempool {
  import opened Orders

  type Slot = (Account, nat)

  datatype PoolTx = PoolTx(from: Account, nonce: nat, cancel: bool, payload: nat)

  function SlotOf(tx: PoolTx): Slot { (tx.from, tx.nonce) }

  /** Transactions by account and nonce; buckets of ready slots, most urgent first; a counter
      of transactions and one of ready slots. */
  datatype Pool = Pool(queued: map<Slot, PoolTx>, buckets: seq<seq<Slot>>, length: int, ready: int)

  const EMPTY := Pool(map[], [[], [], []], 0, 0)

  /** All ready slots in the order they are served. */
  function Ready(buckets: seq<seq<Slot>>): seq<Slot> {
    if buckets == [] then [] else buckets[0] + Ready(buckets[1..])
  }

  /** The counters bound what they count from above. */
  ghost predicate PoolOk(p: Pool) {
    && |p.buckets| == 3 && p.ready >= |Ready(p.buckets)| && p.length >= |p.queued|
    && forall s :: s in p.queued ==> SlotOf(p.queued[s]) == s
  }

  // ---------- draining the buckets ----------

  /** The first `n` ready slots, bucket by bucket. */
  function Taken(buckets: seq<seq<Slot>>, n: nat): seq<Slot> {
    if buckets == [] then []
    else
      var take := Min(n, |buckets[0]|);
      buckets[0][..take] + Taken(buckets[1..], n - take)
  }

  /** What is left in the buckets. */
  function Left(buckets: seq<seq<Slot>>, n: nat): (r: seq<seq<Slot>>)
    ensures |r| == |buckets|
  {
    if buckets == [] then []
    else
      var take := Min(n, |buckets[0]|);
      [buckets[0][take..]] + Left(buckets[1..], n - take)
  }

  lemma {:induction false} CutJoined(a: seq<Slot>, b: seq<Slot>, n: nat)
    ensures var take := Min(n, |a|);
      && (a + b)[..Min(n, |a + b|)] == a[..take] + b[..Min(n - take, |b|)]
      && (a + b)[Min(n, |a + b|)..] == a[take..] + b[Min(n - take, |b|)..]
  {
  }

  lemma {:induction false} ReadyCons(b: seq<Slot>, rest: seq<seq<Slot>>)
    ensures Ready([b] + rest) == b + Ready(rest)
  {
    assert ([b] + rest)[1..] == rest;
  }

  /** Draining takes a prefix of the service order and leaves the rest. */
  lemma {:induction false} DrainIsPrefix(buckets: seq<seq<Slot>>, n: nat)
    ensures var all := Ready(buckets);
      Taken(buckets, n) == all[..Min(n, |all|)] && Ready(Left(buckets, n)) == all[Min(n, |all|)..]
  {
    if buckets != [] {
      var head, rest, take := buckets[0], buckets[1..], Min(n, |buckets[0]|);
      DrainIsPrefix(rest, n - take);
      ReadyCons(head[take..], Left(rest, n - take));
      CutJoined(head, Ready(rest), n);
    }
  }

  lemma {:induction false} DrainNone(buckets: seq<seq<Slot>>)
    ensures Taken(buckets, 0) == [] && Left(buckets, 0) == buckets
  {
    if buckets != [] {
      DrainNone(buckets[1..]);
    }
  }

  // ---------- removing the transactions of drained slots ----------

  /** The slots among `keys` that yield a transaction: the stored ones, once each. */
  function Served(queued: map<Slot, PoolTx>, keys: seq<Slot>): seq<Slot>
    decreases |keys|
  {
    if keys == [] then []
    else if keys[0] in queued then [keys[0]] + Served(queued - {keys[0]}, keys[1..])
    else Served(queued, keys[1..])
  }

  function Unserved(queued: map<Slot, PoolTx>, keys: seq<Slot>): map<Slot, PoolTx>
    decreases |keys|
  {
    if keys == [] then queued else Unserved(queued - {keys[0]}, keys[1..])
  }

  ghost predicate Distinct(keys: seq<Slot>) {
    forall i, j :: 0 <= i < j < |keys| ==> keys[i] != keys[j]
  }

  /** `a` can be read off `b` from front to back. */
  predicate Subsequence(a: seq<Slot>, b: seq<Slot>)
    decreases |b|
  {
    if a == [] then true
    else if b == [] then false
    else if a[0] == b[0] then Subsequence(a[1..], b[1..])
    else Subsequence(a, b[1..])
  }

  /** Served slots are stored, distinct and in service order; every stored slot is served. */
  lemma {:induction false} ServedFacts(queued: map<Slot, PoolTx>, keys: seq<Slot>)
    ensures var r := Served(queued, keys);
      && |r| <= |keys| && |r| <= |queued| && Distinct(r) && Subsequence(r, keys)
      && (forall s :: s in r <==> s in queued && s in keys)
    decreases |keys|
  {
    if keys != [] {
      var q := if keys[0] in queued then queued - {keys[0]} else queued;
      ServedFacts(q, keys[1..]);
      if keys[0] in queued {
        assert queued.Keys == q.Keys + {keys[0]};
        assert |queued| == |queued.Keys| && |q| == |q.Keys|;
      } else {
        var r := Served(queued, keys);
        assert r != [] ==> r[0] in r;
      }
    }
  }

  lemma {:induction false} UnservedFacts(queued: map<Slot, PoolTx>, keys: seq<Slot>)
    ensures |Unserved(queued, keys)| == |queued| - |Served(queued, keys)|
    ensures forall s :: s in Unserved(queued, keys) <==> s in queued && s !in keys
    ensures forall s :: s in Unserved(queued, keys) ==> Unserved(queued, keys)[s] == queued[s]
    decreases |keys|
  {
    if keys != [] {
      var q := queued - {keys[0]};
      UnservedFacts(q, keys[1..]);
      if keys[0] in queued {
        assert queued.Keys == q.Keys + {keys[0]};
        assert |queued| == |queued.Keys| && |q| == |q.Keys|;
      } else {
        assert q == queued;
      }
    }
  }

  function Lookup(queued: map<Slot, PoolTx>, slots: seq<Slot>): (r: seq<PoolTx>)
    requires forall i :: 0 <= i < |slots| ==> slots[i] in queued
    ensures |r| == |slots| && forall i :: 0 <= i < |r| ==> r[i] == queued[slots[i]]
  {
    seq(|slots|, i requires 0 <= i < |slots| => queued[slots[i]])
  }

  // ---------- operations ----------

  function InsertNext(p: Pool, tx: PoolTx, expected: nat): Pool
    requires |p.buckets| == 3
  {
    if tx.nonce < expected then p
    else
      var now := tx.nonce == expected;
      var b := if tx.cancel then 1 else 2;
      Pool(p.queued[SlotOf(tx) := tx], if now then p.buckets[b := p.buckets[b] + [SlotOf(tx)]] else p.buckets,
           p.length + 1, if now then p.ready + 1 else p.ready)
  }

  /** A batch of at most `n`: the counters fall by the number of transactions served, not by
      the number of slots drained. */
  function PopNext(p: Pool, n: nat): Pool {
    var keys := Taken(p.buckets, n);
    var served := |Served(p.queued, keys)|;
    Pool(Unserved(p.queued, keys), Left(p.buckets, n), p.length - served, p.ready - served)
  }

  /** Slots that execution made ready go to the last bucket. */
  function UpdateNext(p: Pool, results: seq<Option<Slot>>): Pool
    requires |p.buckets| == 3
    decreases |results|
  {
    if results == [] then p else UpdateNext(UpdateOne(p, results[0]), results[1..])
  }

  function UpdateOne(p: Pool, res: Option<Slot>): (r: Pool)
    requires |p.buckets| == 3
    ensures |r.buckets| == 3
  {
    if res == None || res.value !in p.queued then p
    else p.(buckets := p.buckets[2 := p.buckets[2] + [res.value]], ready := p.ready + 1)
  }

  datatype PoolOp = InsertOp(tx: PoolTx, expected: nat) | PopOp(n: nat) | UpdateOp(results: seq<Option<Slot>>)

  function Next(p: Pool, op: PoolOp): Pool
    requires |p.buckets| == 3
  {
    match op
    case InsertOp(tx, expected) => InsertNext(p, tx, expected)
    case PopOp(n) => PopNext(p, n)
    case UpdateOp(results) => UpdateNext(p, results)
  }

  lemma {:induction false} ReadyThree(buckets: seq<seq<Slot>>)
    requires |buckets| == 3
    ensures Ready(buckets) == buckets[0] + buckets[1] + buckets[2]
  {
    assert buckets[1..][1..] == buckets[2..] && buckets[2..][1..] == [];
    assert Ready(buckets[2..]) == buckets[2] + Ready([]);
    assert Ready(buckets[1..]) == buckets[1] + Ready(buckets[2..]);
  }

  lemma {:induction false} InsertKeeps(p: Pool, tx: PoolTx, expected: nat)
    requires PoolOk(p)
    ensures PoolOk(InsertNext(p, tx, expected))
  {
    var p' := InsertNext(p, tx, expected);
    ReadyThree(p.buckets);
    ReadyThree(p'.buckets);
    if tx.nonce >= expected {
      assert p'.queued.Keys == p.queued.Keys + {SlotOf(tx)};
      assert |p'.queued| == |p'.queued.Keys| <= |p.queued.Keys| + 1;
    }
  }

  /** A ready cancel is served before all ready orders and transfers, a ready order or
      transfer last; a future one waits; a past one is dropped. The transaction replaces what
      its slot stored, and all other slots stand. */
  lemma {:induction false} InsertPlaces(p: Pool, tx: PoolTx, expected: nat)
    requires |p.buckets| == 3
    ensures tx.nonce < expected ==> InsertNext(p, tx, expected) == p
    ensures tx.nonce >= expected ==>
      var p', s := InsertNext(p, tx, expected), SlotOf(tx);
      && s in p'.queued && p'.queued[s] == tx
      && (forall t :: t != s ==> (t in p'.queued <==> t in p.queued))
      && (forall t :: t != s && t in p.queued ==> p'.queued[t] == p.queued[t])
      && Ready(p'.buckets)
         == if tx.nonce > expected then Ready(p.buckets)
            else if tx.cancel then p.buckets[0] + p.buckets[1] + [s] + p.buckets[2]
            else Ready(p.buckets) + [s]
  {
    ReadyThree(p.buckets);
    ReadyThree(InsertNext(p, tx, expected).buckets);
  }

  /** The reported slots that are stored, in order. */
  function Promoted(queued: map<Slot, PoolTx>, results: seq<Option<Slot>>): seq<Slot> {
    if results == [] then []
    else
      (if results[0] != None && results[0].value in queued then [results[0].value] else [])
      + Promoted(queued, results[1..])
  }

  /** They join the end of the service order, and nothing else changes. */
  lemma {:induction false} UpdatePromotes(p: Pool, results: seq<Option<Slot>>)
    requires |p.buckets| == 3
    ensures var p', more := UpdateNext(p, results), Promoted(p.queued, results);
      && Ready(p'.buckets) == Ready(p.buckets) + more && p'.ready == p.ready + |more|
      && p'.queued == p.queued && p'.length == p.length
    decreases |results|
  {
    if results != [] {
      var q := UpdateOne(p, results[0]);
      UpdatePromotes(q, results[1..]);
      PromotesOne(p, results[0]);
    }
  }

  lemma {:induction false} PromotesOne(p: Pool, res: Option<Slot>)
    requires |p.buckets| == 3
    ensures var q := UpdateOne(p, res);
      Ready(q.buckets) == Ready(p.buckets) + if res != None && res.value in p.queued then [res.value] else []
  {
    ReadyThree(p.buckets);
    ReadyThree(UpdateOne(p, res).buckets);
  }

  lemma {:induction false} PopKeeps(p: Pool, n: nat)
    requires PoolOk(p)
    ensures PoolOk(PopNext(p, n))
  {
    var keys := Taken(p.buckets, n);
    DrainIsPrefix(p.buckets, n);
    ServedFacts(p.queued, keys);
    UnservedFacts(p.queued, keys);
  }

  lemma {:induction false} UpdateKeeps(p: Pool, results: seq<Option<Slot>>)
    requires PoolOk(p)
    ensures PoolOk(UpdateNext(p, results))
    decreases |results|
  {
    if results != [] {
      ReadyThree(p.buckets);
      ReadyThree(UpdateOne(p, results[0]).buckets);
      UpdateKeeps(UpdateOne(p, results[0]), results[1..]);
    }
  }

  lemma {:induction false} StepKeeps(p: Pool, op: PoolOp)
    requires PoolOk(p)
    ensures PoolOk(Next(p, op))
  {
    match op
    case InsertOp(tx, expected) => InsertKeeps(p, tx, expected);
    case PopOp(n) => PopKeeps(p, n);
    case UpdateOp(results) => UpdateKeeps(p, results);
  }

  /** Under any interleaving of operations the counters bound what they count, so they never
      become negative. */
  lemma {:induction false} CountersBound(ps: seq<Pool>, ops: seq<PoolOp>, k: nat)
    requires PoolRun(ps, ops) && k <= |ops|
    ensures PoolOk(ps[k]) && ps[k].ready >= 0 && ps[k].length >= 0
  {
    if k > 0 {
      CountersBound(ps, ops, k - 1);
      assert ps[k] == Next(ps[k - 1], ops[k - 1]);
      StepKeeps(ps[k - 1], ops[k - 1]);
    } else {
      ReadyThree(EMPTY.buckets);
    }
  }

  /** A batch has at most `n` transactions, with distinct accounts and nonces, in service
      order, and leaves none of the drained slots behind. */
  lemma {:induction false} BatchFacts(p: Pool, n: nat)
    requires PoolOk(p)
    ensures var all := Ready(p.buckets);
      var slots := Served(p.queued, Taken(p.buckets, n));
      && |slots| <= n && Distinct(slots) && Subsequence(slots, all[..Min(n, |all|)])
      && (forall s :: s in slots <==> s in p.queued && s in all[..Min(n, |all|)])
      && Ready(PopNext(p, n).buckets) == all[Min(n, |all|)..]
  {
    DrainIsPrefix(p.buckets, n);
    ServedFacts(p.queued, Taken(p.buckets, n));
  }

  // ---------- drift ----------

  /** How far the counter of transactions is above what is stored. */
  function LengthGap(p: Pool): int { p.length - |p.queued| }

  /** How far the counter of ready slots is above what is in the buckets. */
  function ReadyGap(p: Pool): int { p.ready - |Ready(p.buckets)| }

  /** An insert that replaces a stored transaction. */
  function Overwrites(p: Pool, op: PoolOp): nat {
    if op.InsertOp? && op.tx.nonce >= op.expected && SlotOf(op.tx) in p.queued then 1 else 0
  }

  /** The drained slots of a batch that yield no transaction. */
  function Idle(p: Pool, op: PoolOp): (r: nat) {
    if op.PopOp? then
      var keys := Taken(p.buckets, op.n);
      ServedFacts(p.queued, keys);
      |keys| - |Served(p.queued, keys)|
    else 0
  }

  ghost predicate AllStored(queued: map<Slot, PoolTx>, keys: seq<Slot>) {
    forall i :: 0 <= i < |keys| ==> keys[i] in queued
  }

  lemma {:induction false} DistinctCons(k: Slot, rest: seq<Slot>)
    ensures Distinct([k] + rest) <==> Distinct(rest) && k !in rest
  {
    var keys := [k] + rest;
    assert forall i :: 0 <= i < |rest| ==> keys[i + 1] == rest[i];
    if Distinct(keys) {
      forall i | 0 <= i < |rest| ensures rest[i] != k {
        assert keys[0] != keys[i + 1];
      }
    }
  }

  lemma {:induction false} StoredCons(queued: map<Slot, PoolTx>, k: Slot, rest: seq<Slot>)
    requires k in queued
    ensures AllStored(queued - {k}, rest) <==> AllStored(queued, [k] + rest) && k !in rest
  {
    var keys := [k] + rest;
    assert forall i :: 0 <= i < |rest| ==> keys[i + 1] == rest[i];
    if AllStored(queued, keys) && k !in rest {
      forall i | 0 <= i < |rest| ensures rest[i] in queued - {k} {
        assert keys[i + 1] in queued && rest[i] in rest;
      }
    }
  }

  /** A batch idles unless it drains only stored slots, each once. */
  lemma {:induction false} IdleIff(queued: map<Slot, PoolTx>, keys: seq<Slot>)
    ensures |Served(queued, keys)| == |keys| <==> Distinct(keys) && AllStored(queued, keys)
    decreases |keys|
  {
    if keys != [] {
      var k, rest := keys[0], keys[1..];
      assert keys == [k] + rest;
      if k in queued {
        IdleIff(queued - {k}, rest);
        DistinctCons(k, rest);
        StoredCons(queued, k, rest);
      } else {
        ServedFacts(queued, rest);
      }
    }
  }

  /** If the operation is a batch, it drains only stored slots, each once. */
  ghost predicate CleanBatch(p: Pool, op: PoolOp) {
    op.PopOp? ==> Distinct(Taken(p.buckets, op.n)) && AllStored(p.queued, Taken(p.buckets, op.n))
  }

  lemma {:induction false} IdleZeroIff(p: Pool, op: PoolOp)
    ensures Idle(p, op) == 0 <==> CleanBatch(p, op)
  {
    if op.PopOp? {
      IdleIff(p.queued, Taken(p.buckets, op.n));
    }
  }

  lemma {:induction false} InsertDrift(p: Pool, tx: PoolTx, expected: nat)
    requires |p.buckets| == 3
    ensures LengthGap(InsertNext(p, tx, expected)) == LengthGap(p) + Overwrites(p, InsertOp(tx, expected))
    ensures ReadyGap(InsertNext(p, tx, expected)) == ReadyGap(p)
  {
    var p' := InsertNext(p, tx, expected);
    ReadyThree(p.buckets);
    ReadyThree(p'.buckets);
    if tx.nonce >= expected {
      assert p'.queued.Keys == p.queued.Keys + {SlotOf(tx)};
      assert |p'.queued| == |p'.queued.Keys| && |p.queued| == |p.queued.Keys|;
    }
  }

  lemma {:induction false} PopDrift(p: Pool, n: nat)
    ensures LengthGap(PopNext(p, n)) == LengthGap(p) && ReadyGap(PopNext(p, n)) == ReadyGap(p) + Idle(p, PopOp(n))
  {
    DrainIsPrefix(p.buckets, n);
    UnservedFacts(p.queued, Taken(p.buckets, n));
  }

  /** Each operation widens the gaps by exactly its own overwrites and idle slots. */
  lemma {:induction false} StepDrift(p: Pool, op: PoolOp)
    requires |p.buckets| == 3
    ensures LengthGap(Next(p, op)) == LengthGap(p) + Overwrites(p, op)
    ensures ReadyGap(Next(p, op)) == ReadyGap(p) + Idle(p, op)
  {
    match op
    case InsertOp(tx, expected) => InsertDrift(p, tx, expected);
    case PopOp(n) => PopDrift(p, n);
    case UpdateOp(results) => UpdatePromotes(p, results);
  }

  /** Consecutive pools under a sequence of operations, from the empty one on. */
  ghost predicate PoolRun(ps: seq<Pool>, ops: seq<PoolOp>) {
    && |ps| == |ops| + 1 && ps[0] == EMPTY
    && forall i {:trigger ops[i]} :: 0 <= i < |ops| ==> |ps[i].buckets| == 3 && ps[i + 1] == Next(ps[i], ops[i])
  }

  function TotalOverwrites(ps: seq<Pool>, ops: seq<PoolOp>, k: nat): nat
    requires k <= |ops| < |ps|
  {
    if k == 0 then 0 else TotalOverwrites(ps, ops, k - 1) + Overwrites(ps[k - 1], ops[k - 1])
  }

  function TotalIdle(ps: seq<Pool>, ops: seq<PoolOp>, k: nat): nat
    requires k <= |ops| < |ps|
  {
    if k == 0 then 0 else TotalIdle(ps, ops, k - 1) + Idle(ps[k - 1], ops[k - 1])
  }

  /** In every run the gaps are exactly the number of overwrites and of idle slots so far. */
  lemma {:induction false} GapsCount(ps: seq<Pool>, ops: seq<PoolOp>, k: nat)
    requires PoolRun(ps, ops) && k <= |ops|
    ensures LengthGap(ps[k]) == TotalOverwrites(ps, ops, k) && ReadyGap(ps[k]) == TotalIdle(ps, ops, k)
  {
    if k == 0 {
      ReadyThree(EMPTY.buckets);
    } else {
      GapsCount(ps, ops, k - 1);
      assert ps[k] == Next(ps[k - 1], ops[k - 1]);
      StepDrift(ps[k - 1], ops[k - 1]);
    }
  }

  lemma {:induction false} TotalsZeroIff(ps: seq<Pool>, ops: seq<PoolOp>, k: nat)
    requires k <= |ops| < |ps|
    ensures TotalOverwrites(ps, ops, k) == 0 <==>
      forall i {:trigger ops[i]} :: 0 <= i < k ==> Overwrites(ps[i], ops[i]) == 0
    ensures TotalIdle(ps, ops, k) == 0 <==> forall i {:trigger ops[i]} :: 0 <= i < k ==> CleanBatch(ps[i], ops[i])
  {
    if k > 0 {
      TotalsZeroIff(ps, ops, k - 1);
      IdleZeroIff(ps[k - 1], ops[k - 1]);
      var last := ops[k - 1];
      assert forall i {:trigger ops[i]} :: 0 <= i < k ==> i < k - 1 || ops[i] == last;
    }
  }

  /** So the counters drift upwards for good: over every run neither gap ever shrinks, the
      first is closed exactly while no insert has hit a stored slot, and the second exactly
      while every batch drained only stored slots, each once. */
  lemma {:induction false} CountersDrift(ps: seq<Pool>, ops: seq<PoolOp>, j: nat, k: nat)
    requires PoolRun(ps, ops) && j <= k <= |ops|
    ensures 0 <= LengthGap(ps[j]) <= LengthGap(ps[k]) && 0 <= ReadyGap(ps[j]) <= ReadyGap(ps[k])
    ensures LengthGap(ps[k]) == 0 <==> forall i {:trigger ops[i]} :: 0 <= i < k ==> Overwrites(ps[i], ops[i]) == 0
    ensures ReadyGap(ps[k]) == 0 <==> forall i {:trigger ops[i]} :: 0 <= i < k ==> CleanBatch(ps[i], ops[i])
  {
    GapsCount(ps, ops, j);
    GapsCount(ps, ops, k);
    TotalsGrow(ps, ops, j, k);
    TotalsZeroIff(ps, ops, k);
  }

  lemma {:induction false} TotalsGrow(ps: seq<Pool>, ops: seq<PoolOp>, j: nat, k: nat)
    requires j <= k <= |ops| < |ps|
    ensures TotalOverwrites(ps, ops, j) <= TotalOverwrites(ps, ops, k) && TotalIdle(ps, ops, j) <= TotalIdle(ps, ops, k)
  {
    if j < k {
      TotalsGrow(ps, ops, j, k - 1);
    }
  }

  /** Both gaps do open: two transactions with one account and nonce. */
  lemma {:induction false} DuplicateDrifts(a: PoolTx, b: PoolTx)
    requires SlotOf(a) == SlotOf(b) && a.cancel == b.cancel
    ensures var p := InsertNext(InsertNext(EMPTY, a, a.nonce), b, a.nonce);
      LengthGap(p) == 1 && ReadyGap(PopNext(p, 2)) == 1
  {
    var p := InsertNext(InsertNext(EMPTY, a, a.nonce), b, a.nonce);
    var s := SlotOf(a);
    assert p.queued == map[s := b];
    ReadyThree(p.buckets);
    assert Ready(p.buckets) == [s, s];
    DrainIsPrefix(p.buckets, 2);
    PopDrift(p, 2);
    IdleIff(p.queued, [s, s]);
    ServedFacts(p.queued, [s, s]);
    assert s in Served(p.queued, [s, s]);
    assert |Served(p.queued, [s, s])| == 1;
  }

  // ---------- the service order over runs ----------

  /** The slots an operation makes ready: cancels, or orders and transfers. */
  function Arrivals(p: Pool, op: PoolOp, cancels: bool): seq<Slot> {
    match op
    case InsertOp(tx, expected) => if tx.nonce == expected && tx.cancel == cancels then [SlotOf(tx)] else []
    case PopOp(_) => []
    case UpdateOp(results) => if cancels then [] else Promoted(p.queued, results)
  }

  function Arrived(ps: seq<Pool>, ops: seq<PoolOp>, k: nat, cancels: bool): seq<Slot>
    requires k <= |ops| < |ps|
  {
    if k == 0 then [] else Arrived(ps, ops, k - 1, cancels) + Arrivals(ps[k - 1], ops[k - 1], cancels)
  }

  /** Two first-in-first-out queues; a batch is taken off the cancels first. */
  function Waiting(ps: seq<Pool>, ops: seq<PoolOp>, k: nat, cancels: bool): seq<Slot>
    requires k <= |ops| < |ps|
    decreases k
  {
    if k == 0 then []
    else if !ops[k - 1].PopOp? then Waiting(ps, ops, k - 1, cancels) + Arrivals(ps[k - 1], ops[k - 1], cancels)
    else
      var first, second := Waiting(ps, ops, k - 1, true), Waiting(ps, ops, k - 1, false);
      var take := Min(ops[k - 1].n, |first|);
      if cancels then first[take..] else second[Min(ops[k - 1].n - take, |second|)..]
  }

  lemma {:induction false} UpdateBuckets(p: Pool, results: seq<Option<Slot>>)
    requires |p.buckets| == 3
    ensures UpdateNext(p, results).buckets == p.buckets[2 := p.buckets[2] + Promoted(p.queued, results)]
    decreases |results|
  {
    assert p.buckets[2] + [] == p.buckets[2];
    if results != [] {
      var q := UpdateOne(p, results[0]);
      UpdateBuckets(q, results[1..]);
      var now := if results[0] != None && results[0].value in p.queued then [results[0].value] else [];
      assert q.buckets == p.buckets[2 := p.buckets[2] + now];
      AppendAssoc(p.buckets[2], now, Promoted(p.queued, results[1..]));
    }
  }

  /** The first bucket is empty, the others are these. */
  ghost predicate Holds(buckets: seq<seq<Slot>>, a: seq<Slot>, b: seq<Slot>) {
    |buckets| == 3 && buckets[0] == [] && buckets[1] == a && buckets[2] == b
  }

  lemma {:induction false} LeftThree(buckets: seq<seq<Slot>>, a: seq<Slot>, b: seq<Slot>, n: nat)
    requires Holds(buckets, a, b)
    ensures Holds(Left(buckets, n), a[Min(n, |a|)..], b[Min(n - Min(n, |a|), |b|)..]) == true
  {
    var take := Min(n, |a|);
    assert Left(buckets, n) == [buckets[0][0..]] + Left(buckets[1..], n);
    assert Left(buckets[1..], n) == [a[take..]] + Left(buckets[1..][1..], n - take);
    assert buckets[1..][1..][0] == b;
  }

  lemma {:induction false} InsertBuckets(p: Pool, tx: PoolTx, expected: nat, a: seq<Slot>, b: seq<Slot>)
    requires Holds(p.buckets, a, b)
    ensures var op := InsertOp(tx, expected);
      Holds(InsertNext(p, tx, expected).buckets, a + Arrivals(p, op, true), b + Arrivals(p, op, false)) == true
  {
    assert a + [] == a && b + [] == b;
  }

  /** What an operation makes of the two queues. */
  ghost predicate QueuesNext(p: Pool, op: PoolOp, a: seq<Slot>, b: seq<Slot>, p': Pool) {
    if op.PopOp? then Holds(p'.buckets, a[Min(op.n, |a|)..], b[Min(op.n - Min(op.n, |a|), |b|)..])
    else Holds(p'.buckets, a + Arrivals(p, op, true), b + Arrivals(p, op, false))
  }

  lemma {:induction false} StepQueues(p: Pool, op: PoolOp, a: seq<Slot>, b: seq<Slot>)
    requires Holds(p.buckets, a, b)
    ensures QueuesNext(p, op, a, b, Next(p, op)) == true
  {
    match op
    case InsertOp(tx, expected) => InsertBuckets(p, tx, expected, a, b);
    case PopOp(n) => LeftThree(p.buckets, a, b, n);
    case UpdateOp(results) =>
      UpdateBuckets(p, results);
      assert a + [] == a;
  }

  lemma {:induction false} WaitingNext(ps: seq<Pool>, ops: seq<PoolOp>, k: nat, p': Pool)
    requires 0 < k <= |ops| < |ps|
    requires QueuesNext(ps[k - 1], ops[k - 1], Waiting(ps, ops, k - 1, true), Waiting(ps, ops, k - 1, false), p')
    ensures Holds(p'.buckets, Waiting(ps, ops, k, true), Waiting(ps, ops, k, false)) == true
  {
  }

  /** In every run the first bucket is empty and the pool serves in the order of the two queues. */
  lemma {:induction false} TwoQueues(ps: seq<Pool>, ops: seq<PoolOp>, k: nat)
    requires PoolRun(ps, ops) && k <= |ops|
    ensures Holds(ps[k].buckets, Waiting(ps, ops, k, true), Waiting(ps, ops, k, false)) == true
    ensures Ready(ps[k].buckets) == Waiting(ps, ops, k, true) + Waiting(ps, ops, k, false)
  {
    if k > 0 {
      TwoQueues(ps, ops, k - 1);
      assert ps[k] == Next(ps[k - 1], ops[k - 1]);
      StepQueues(ps[k - 1], ops[k - 1], Waiting(ps, ops, k - 1, true), Waiting(ps, ops, k - 1, false));
      WaitingNext(ps, ops, k, ps[k]);
    }
    HoldsReady(ps[k].buckets, Waiting(ps, ops, k, true), Waiting(ps, ops, k, false));
  }

  lemma {:induction false} HoldsReady(buckets: seq<seq<Slot>>, a: seq<Slot>, b: seq<Slot>)
    requires Holds(buckets, a, b)
    ensures Ready(buckets) == a + b
  {
    ReadyThree(buckets);
  }

  ghost predicate Suffix(rest: seq<Slot>, all: seq<Slot>) { |rest| <= |all| && rest == all[|all| - |rest|..] }

  lemma {:induction false} SuffixGrows(rest: seq<Slot>, all: seq<Slot>, more: seq<Slot>, n: nat)
    requires Suffix(rest, all)
    ensures Suffix(rest + more, all + more) && (n <= |rest| ==> Suffix(rest[n..], all))
  {
  }

  /** What waits in a queue is the end of all that ever arrived there: first in, first out. */
  lemma {:induction false} FirstInFirstOut(ps: seq<Pool>, ops: seq<PoolOp>, k: nat, cancels: bool)
    requires k <= |ops| < |ps|
    ensures Suffix(Waiting(ps, ops, k, cancels), Arrived(ps, ops, k, cancels)) == true
    decreases k
  {
    if k > 0 {
      FirstInFirstOut(ps, ops, k - 1, cancels);
      var all, rest := Arrived(ps, ops, k - 1, cancels), Waiting(ps, ops, k - 1, cancels);
      var more := Arrivals(ps[k - 1], ops[k - 1], cancels);
      if ops[k - 1].PopOp? {
        var take := Min(ops[k - 1].n, |Waiting(ps, ops, k - 1, true)|);
        SuffixGrows(rest, all, more, if cancels then take else Min(ops[k - 1].n - take, |rest|));
        assert all + [] == all;
      } else {
        SuffixGrows(rest, all, more, 0);
      }
    }
  }

  // ---------- steps of the loops ----------

  lemma {:induction false} DrainStep(buckets: seq<seq<Slot>>, i: nat, n: nat)
    requires i < |buckets|
    ensures var take := Min(n, |buckets[i]|);
      && Taken(buckets[i..], n) == buckets[i][..take] + Taken(buckets[i + 1..], n - take)
      && Left(buckets[i..], n) == [buckets[i][take..]] + Left(buckets[i + 1..], n - take)
  {
    assert buckets[i..][0] == buckets[i] && buckets[i..][1..] == buckets[i + 1..];
  }

  /** The first `i` buckets are drained. */
  ghost predicate Draining(was: seq<seq<Slot>>, n: nat, i: nat, keys: seq<Slot>, done: seq<seq<Slot>>, remaining: nat) {
    i <= |was| && keys + Taken(was[i..], remaining) == Taken(was, n) && done + Left(was[i..], remaining) == Left(was, n)
  }

  lemma {:induction false} DrainOne(
      was: seq<seq<Slot>>, n: nat, i: nat, keys: seq<Slot>, done: seq<seq<Slot>>, remaining: nat)
    requires Draining(was, n, i, keys, done, remaining) && i < |was|
    ensures var take := Min(remaining, |was[i]|);
      Draining(was, n, i + 1, keys + was[i][..take], done + [was[i][take..]], remaining - take) == true
  {
    var take := Min(remaining, |was[i]|);
    DrainStep(was, i, remaining);
    AppendAssoc(keys, was[i][..take], Taken(was[i + 1..], remaining - take));
    AppendAssoc(done, [was[i][take..]], Left(was[i + 1..], remaining - take));
  }

  lemma {:induction false} Replaced(done: seq<seq<Slot>>, was: seq<seq<Slot>>, i: nat, b: seq<Slot>)
    requires i < |was| && |done| == i
    ensures (done + was[i..])[i := b] == done + [b] + was[i + 1..]
  {
  }

  ghost predicate AllEmpty(buckets: seq<seq<Slot>>) { forall i :: 0 <= i < |buckets| ==> buckets[i] == [] }

  /** Fewer slots than asked for: all of them are taken. */
  lemma {:induction false} WholeDrain(buckets: seq<seq<Slot>>, n: nat)
    requires |Ready(buckets)| <= n
    ensures Taken(buckets, n) == Ready(buckets) && AllEmpty(Left(buckets, n))
  {
    if buckets != [] {
      WholeDrain(buckets[1..], n - |buckets[0]|);
    }
  }

  ghost predicate Within(now: map<Slot, PoolTx>, was: map<Slot, PoolTx>) {
    forall s :: s in now ==> s in was && now[s] == was[s]
  }

  /** The transactions are those of the slots. */
  ghost predicate Reads(queued: map<Slot, PoolTx>, slots: seq<Slot>, txs: seq<PoolTx>) {
    |txs| == |slots| && forall i :: 0 <= i < |slots| ==> slots[i] in queued && txs[i] == queued[slots[i]]
  }

  lemma {:induction false} ServeStep(queued: map<Slot, PoolTx>, keys: seq<Slot>, i: nat)
    requires i < |keys|
    ensures Unserved(queued, keys[i..]) == Unserved(queued - {keys[i]}, keys[i + 1..])
    ensures keys[i] in queued ==> Served(queued, keys[i..]) == [keys[i]] + Served(queued - {keys[i]}, keys[i + 1..])
    ensures keys[i] !in queued ==>
      Served(queued, keys[i..]) == Served(queued, keys[i + 1..]) && queued - {keys[i]} == queued
  {
    assert keys[i..][0] == keys[i] && keys[i..][1..] == keys[i + 1..];
  }

  /** The first `i` slots are dealt with. */
  ghost predicate Removing(
      was: map<Slot, PoolTx>, keys: seq<Slot>, i: nat, queued: map<Slot, PoolTx>, done: seq<Slot>,
          result: seq<PoolTx>) {
    && i <= |keys| && done + Served(queued, keys[i..]) == Served(was, keys)
    && Unserved(queued, keys[i..]) == Unserved(was, keys)
    && Within(queued, was) && Reads(was, done, result)
  }

  lemma {:induction false} RemoveOne(
      was: map<Slot, PoolTx>, keys: seq<Slot>, i: nat, queued: map<Slot, PoolTx>, done: seq<Slot>, result: seq<PoolTx>)
    requires Removing(was, keys, i, queued, done, result) && i < |keys|
    ensures keys[i] in queued ==>
      && |done| < |Served(was, keys)|
      && Removing(was, keys, i + 1, queued - {keys[i]}, done + [keys[i]], result + [queued[keys[i]]]) == true
    ensures keys[i] !in queued ==> Removing(was, keys, i + 1, queued, done, result) == true
  {
    ServeStep(queued, keys, i);
    AppendAssoc(done, [keys[i]], Served(queued - {keys[i]}, keys[i + 1..]));
  }

  // ---------- the mempool object ----------

  class PriorityMempool {
    var length: nat
    var ready: nat
    var queued: map<Slot, PoolTx>
    var buckets: seq<seq<Slot>>

    function State(): Pool
      reads this
    {
      Pool(queued, buckets, length, ready)
    }

    constructor ()
      ensures State() == EMPTY
    {
      length, ready, queued, buckets := 0, 0, map[], [[], [], []];
    }

    method Insert(tx: PoolTx, expected: nat)
      requires PoolOk(State())
      modifies this
      ensures State() == InsertNext(old(State()), tx, expected) && PoolOk(State())
    {
      InsertKeeps(State(), tx, expected);
      if tx.nonce < expected {
        return;
      }
      if tx.nonce == expected {
        if tx.cancel {
          buckets := buckets[1 := buckets[1] + [(tx.from, expected)]];
        } else {
          buckets := buckets[2 := buckets[2] + [(tx.from, expected)]];
        }
        ready := ready + 1;
      }
      length := length + 1;
      queued := queued[SlotOf(tx) := tx];
    }

    /** Take the first `n` slots, bucket by bucket. */
    method DrainSome(n: nat) returns (keys: seq<Slot>)
      modifies this`buckets
      ensures keys == Taken(old(buckets), n) && buckets == Left(old(buckets), n)
    {
      ghost var was := buckets;
      keys := [];
      ghost var done: seq<seq<Slot>> := [];
      var remaining, i := n, 0;
      while i < |buckets|
        invariant 0 <= i <= |buckets| == |was| && buckets == done + was[i..]
        invariant Draining(was, n, i, keys, done, remaining) == true
      {
        var take := Min(remaining, |buckets[i]|);
        assert |done| == i && buckets[i] == was[i];
        DrainOne(was, n, i, keys, done, remaining);
        Replaced(done, was, i, was[i][take..]);
        keys := keys + buckets[i][..take];
        buckets := buckets[i := buckets[i][take..]];
        done := done + [was[i][take..]];
        remaining := remaining - take;
        i := i + 1;
        if remaining == 0 {
          DrainNone(was[i..]);
          return;
        }
      }
      assert was[i..] == [];
    }

    method DrainAll() returns (keys: seq<Slot>)
      modifies this`buckets
      ensures keys == Ready(old(buckets)) && AllEmpty(buckets) && |buckets| == |old(buckets)|
    {
      ghost var was := buckets;
      keys := [];
      for i := 0 to |buckets|
        invariant |buckets| == |was| && buckets[i..] == was[i..]
        invariant keys + Ready(was[i..]) == Ready(was)
        invariant forall j :: 0 <= j < i ==> buckets[j] == []
      {
        assert was[i..][0] == was[i] == buckets[i..][0] && was[i..][1..] == was[i + 1..];
        AppendAssoc(keys, was[i], Ready(was[i + 1..]));
        keys := keys + buckets[i];
        ghost var before := buckets;
        buckets := buckets[i := []];
        assert buckets[i + 1..] == before[i..][1..];
      }
    }

    method PopNextN(n: nat) returns (result: seq<PoolTx>)
      requires PoolOk(State())
      modifies this
      ensures State() == PopNext(old(State()), n) && PoolOk(State())
      ensures forall s :: s in Served(old(queued), Taken(old(buckets), n)) ==> s in old(queued)
      ensures result == Lookup(old(queued), Served(old(queued), Taken(old(buckets), n)))
      ensures |result| <= n
    {
      ghost var p := State();
      BatchFacts(p, n);
      PopKeeps(p, n);
      var keys;
      if ready < n {
        WholeDrain(buckets, n);
        keys := DrainAll();
        assert buckets == Left(p.buckets, n);
      } else {
        keys := DrainSome(n);
      }
      ServedFacts(p.queued, keys);
      result := Remove(keys);
    }

    /** Remove the transactions of the given slots; each decrement is safe. */
    method Remove(keys: seq<Slot>) returns (result: seq<PoolTx>)
      requires length >= |Served(queued, keys)| && ready >= |Served(queued, keys)|
      modifies this`queued, this`length, this`ready
      ensures queued == Unserved(old(queued), keys)
      ensures length == old(length) - |Served(old(queued), keys)| && ready == old(ready) - |Served(old(queued), keys)|
      ensures forall s :: s in Served(old(queued), keys) ==> s in old(queued)
      ensures result == Lookup(old(queued), Served(old(queued), keys))
    {
      ServedFacts(queued, keys);
      result := [];
      ghost var done: seq<Slot> := [];
      for i := 0 to |keys|
        invariant Removing(old(queued), keys, i, queued, done, result) == true
        invariant length == old(length) - |done| && ready == old(ready) - |done|
      {
        RemoveOne(old(queued), keys, i, queued, done, result);
        if keys[i] in queued {
          var tx := queued[keys[i]];
          queued := queued - {keys[i]};
          length := length - 1;
          ready := ready - 1;
          result := result + [tx];
          done := done + [keys[i]];
        }
      }
      assert keys[|keys|..] == [];
      assert done == Served(old(queued), keys);
    }

    method UpdateAfterExecution(results: seq<Option<Slot>>)
      requires PoolOk(State())
      modifies this
      ensures State() == UpdateNext(old(State()), results) && PoolOk(State())
    {
      ghost var p := State();
      for i := 0 to |results|
        invariant |buckets| == 3 && UpdateNext(State(), results[i..]) == UpdateNext(p, results)
      {
        assert results[i..][0] == results[i] && results[i..][1..] == results[i + 1..];
        if results[i] == None {
          continue;
        }
        var s := results[i].value;
        if s in queued {
          buckets := buckets[2 := buckets[2] + [s]];
          ready := ready + 1;
        }
      }
      UpdateKeeps(p, results);
    }
  }
}
