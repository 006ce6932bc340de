/** Runs that meet all hypotheses of the agreement theorem and commit block after block. */
module HonestRun {
  import opened Orders
  import opened Merkle
  import opened Quorums
  import opened HotStuff
  import opened Agreement

  /** The validators, and those of them that propose and vote; the others are silent. */
  datatype Crew = Crew(all: set<Key>, voters: seq<Key>)

  ghost function KeySet(voters: seq<Key>): set<Key> { set k | k in voters }

  ghost function Correct(c: Crew): set<Key> { KeySet(c.voters) }

  ghost predicate CrewOk(c: Crew) {
    && c.all != {} && c.voters != [] && Correct(c) <= c.all
    && (forall i, j :: 0 <= i < j < |c.voters| ==> c.voters[i] != c.voters[j])
    && |c.voters| >= Quorum(|c.all|)
  }

  lemma {:induction false} DistinctSize(voters: seq<Key>)
    requires forall i, j :: 0 <= i < j < |voters| ==> voters[i] != voters[j]
    ensures |KeySet(voters)| == |voters|
  {
    if voters != [] {
      var n := |voters| - 1;
      var less := voters[..n];
      DistinctSize(less);
      assert voters == less + [voters[n]];
      assert voters[n] !in less;
      assert KeySet(voters) == KeySet(less) + {voters[n]};
    }
  }

  /** Any 2f + 1 of 3f + 1 validators will do, with up to f silent faults. */
  lemma {:induction false} CrewOfTwoThirds(all: set<Key>, voters: seq<Key>, f: nat)
    requires |all| == 3 * f + 1 && |voters| >= 2 * f + 1
    requires forall i :: 0 <= i < |voters| ==> voters[i] in all
    requires forall i, j :: 0 <= i < j < |voters| ==> voters[i] != voters[j]
    ensures CrewOk(Crew(all, voters)) && |all - Correct(Crew(all, voters))| < 2 * Quorum(|all|) - |all|
  {
    var correct := Correct(Crew(all, voters));
    DistinctSize(voters);
    assert |correct| == |voters|;
    assert all == correct + (all - correct);
  }

  // ---------- the chain: blocks in views 1, 2, 3, ... ----------

  function ChainHash(n: nat): Hash { if n == 0 then GenesisHash else BlockHash(ChainHash(n - 1), Zero, n) }

  function SigsOf(voters: seq<Key>, m: Message): (r: seq<Signature>)
    ensures |r| == |voters| && forall i :: 0 <= i < |r| ==> r[i] == Signature(voters[i], Some(m))
  {
    seq(|voters|, i requires 0 <= i < |voters| => Signature(voters[i], Some(m)))
  }

  /** Every voter signs. */
  function VotedQc(c: Crew, view: nat, h: Hash): Certificate {
    var m := BlockMessage(view, h);
    Certificate(view, h, m, SigsOf(c.voters, m))
  }

  lemma {:induction false} VotedQcAccepted(c: Crew, view: nat, h: Hash)
    requires CrewOk(c)
    ensures Accepted(VotedQc(c, view, h), c.all, Quorum(|c.all|))
  {
    var m := BlockMessage(view, h);
    forall i | 0 <= i < |c.voters| ensures c.voters[i] in c.all {
      assert c.voters[i] in Correct(c);
    }
    DistinctEndorse(SigsOf(c.voters, m), c.all, m);
  }

  function ChainQc(c: Crew, n: nat): Certificate {
    if n == 0 then GENESIS_QC else VotedQc(c, n, ChainHash(n))
  }

  function ChainBlock(c: Crew, n: nat): Block {
    if n == 0 then Genesis else Normal(ChainHash(n - 1), [], n, ChainQc(c, n - 1), Zero)
  }

  function Behind(n: nat, k: nat): nat { if n < k then 0 else n - k }

  /** A replica after `n` proposals. */
  ghost predicate ChainState(c: Crew, r: Replica, n: nat) {
    r.validators == c.all && StoresChain(c, r.store, n) && r.locked == ChainQc(c, Behind(n, 2))
  }

  /** The store holds exactly the chain up to block `n`. */
  ghost predicate StoresChain(c: Crew, store: Store, n: nat) {
    && (forall i: nat :: i <= n ==> StoredAt(c, store, i))
    && (forall h :: h in store ==> Within(h, n))
  }

  ghost predicate StoredAt(c: Crew, store: Store, i: nat) {
    ChainHash(i) in store && store[ChainHash(i)] == ChainBlock(c, i)
  }

  ghost predicate Within(h: Hash, n: nat) { exists i: nat :: i <= n && h == ChainHash(i) }

  lemma {:induction false} ChainQcFacts(c: Crew, n: nat)
    ensures ChainQc(c, n).block == ChainHash(n) && ChainQc(c, n).view == n == ViewOf(ChainHash(n))
    ensures HashBlock(ChainBlock(c, n)) == ChainHash(n)
  {
  }

  lemma {:induction false} ChainQcAccepted(c: Crew, n: nat)
    requires CrewOk(c)
    ensures Accepted(ChainQc(c, n), c.all, Quorum(|c.all|))
  {
    if n > 0 {
      VotedQcAccepted(c, n, ChainHash(n));
    }
  }

  lemma {:induction false} ChainVotes(c: Crew, r: Replica, n: nat)
    requires CrewOk(c) == true && ChainState(c, r, n)
    ensures VotesFor(r, true, ChainBlock(c, n + 1))
  {
    var node := ChainBlock(c, n + 1);
    ChainQcFacts(c, n);
    ChainQcFacts(c, Behind(n, 2));
    ChainQcAccepted(c, n);
    assert Hashes(node.txs) == [];
    assert StoredAt(c, r.store, n);
    assert ChainHash(n) in Stored(r, node).store;
    if n == 0 {
      assert node.parent == r.locked.block;
    }
  }

  lemma {:induction false} ChainStored(c: Crew, r: Replica, n: nat)
    requires StoresChain(c, r.store, n)
    ensures StoresChain(c, Stored(r, ChainBlock(c, n + 1)).store, n + 1) == true
  {
    var s := Stored(r, ChainBlock(c, n + 1)).store;
    ChainQcFacts(c, n + 1);
    forall i: nat | i <= n + 1 ensures StoredAt(c, s, i) {
      ChainQcFacts(c, i);
      if i <= n {
        assert StoredAt(c, r.store, i);
      }
    }
    forall h | h in s ensures Within(h, n + 1) {
      if h != ChainHash(n + 1) {
        WithinMore(h, n);
      }
    }
  }

  lemma {:induction false} WithinMore(h: Hash, n: nat)
    requires Within(h, n)
    ensures Within(h, n + 1)
  {
    var i: nat :| i <= n && h == ChainHash(i);
  }

  /** Each proposal gets a vote, moves the lock up, and commits the block three below it. */
  lemma {:induction false} ChainStep(c: Crew, r: Replica, n: nat)
    requires CrewOk(c) == true && ChainState(c, r, n) && r.validators != {}
    ensures var (r', re) := HandleProposal(r, true, ChainBlock(c, n + 1));
      && ChainState(c, r', n + 1) == true && re.vote == Some(ChainBlock(c, n + 1))
      && re.commit == if n >= 2 then Some(ChainBlock(c, n - 2)) else None
  {
    var node := ChainBlock(c, n + 1);
    ChainVotes(c, r, n);
    ChainStored(c, r, n);
    ChainAdvance(c, Stored(r, node), n);
  }

  lemma {:induction false} ChainLink(c: Crew, store: Store, n: nat)
    requires StoredAt(c, store, n)
    ensures Justified(store, ChainBlock(c, n + 1)) == Some(ChainBlock(c, n))
      && IsParent(ChainBlock(c, n + 1), ChainBlock(c, n))
  {
    ChainQcFacts(c, n);
  }

  lemma {:induction false} ChainAdvance(c: Crew, s: Replica, n: nat)
    requires StoresChain(c, s.store, n + 1) && s.locked == ChainQc(c, Behind(n, 2))
    ensures var (s', commit) := Advance(s, ChainBlock(c, n + 1));
      && s'.store == s.store && s'.validators == s.validators && s'.locked == ChainQc(c, Behind(n + 1, 2))
      && commit == if n >= 2 then Some(ChainBlock(c, n - 2)) else None
  {
    ChainLink(c, s.store, n);
    if n >= 1 {
      assert StoredAt(c, s.store, n - 1);
      ChainLink(c, s.store, n - 1);
    }
    if n >= 2 {
      assert StoredAt(c, s.store, n - 2);
      ChainLink(c, s.store, n - 2);
    }
  }

  ghost function StateAt(c: Crew, n: nat): (r: Replica)
    requires c.all != {}
    ensures r.validators == c.all
  {
    if n == 0 then Initial(c.all)
    else
      var node := ChainBlock(c, n);
      AdvanceStore(Stored(StateAt(c, n - 1), node), node);
      HandleProposal(StateAt(c, n - 1), true, node).0
  }

  lemma {:induction false} StateNext(c: Crew, n: nat)
    requires c.all != {}
    ensures StateAt(c, n + 1) == HandleProposal(StateAt(c, n), true, ChainBlock(c, n + 1)).0
  {
  }

  lemma {:induction false} StateAtChain(c: Crew, n: nat)
    requires CrewOk(c) == true && c.all != {}
    ensures ChainState(c, StateAt(c, n), n) == true
  {
    if n == 0 {
      InitialState(c);
    } else {
      StateAtChain(c, n - 1);
      StateNext(c, n - 1);
      ChainStep(c, StateAt(c, n - 1), n - 1);
    }
  }

  lemma {:induction false} InitialState(c: Crew)
    ensures ChainState(c, Initial(c.all), 0)
  {
    assert ChainHash(0) == GenesisHash;
    assert StoredAt(c, Initial(c.all).store, 0);
    assert Within(GenesisHash, 0);
  }

  lemma {:induction false} LockViewAt(c: Crew, n: nat)
    requires CrewOk(c) == true && c.all != {}
    ensures StateAt(c, n).locked.view == Behind(n, 2)
  {
    StateAtChain(c, n);
    ChainQcFacts(c, Behind(n, 2));
  }

  // ---------- the voters take turns ----------

  /** The voter whose turn step `i` is, out of `n`, and how many rounds are complete. */
  function Turn(i: nat, n: nat): (p: nat)
    requires n > 0
    ensures p < n
  {
    if i == 0 then 0 else if Turn(i - 1, n) + 1 == n then 0 else Turn(i - 1, n) + 1
  }

  function Round(i: nat, n: nat): nat
    requires n > 0
  {
    if i == 0 then 0 else if Turn(i - 1, n) + 1 == n then Round(i - 1, n) + 1 else Round(i - 1, n)
  }

  lemma {:induction false} TurnsAdvance(i: nat, j: nat, n: nat)
    requires n > 0 && i < j
    ensures Round(i, n) < Round(j, n) || (Round(i, n) == Round(j, n) && Turn(i, n) < Turn(j, n))
    decreases j
  {
    if i < j - 1 {
      TurnsAdvance(i, j - 1, n);
    }
  }

  /** Every voter had its turn in every complete round. */
  lemma {:induction false} TurnTaken(i: nat, n: nat, r: nat, p: nat) returns (j: nat)
    requires n > 0 && p < n && (r < Round(i, n) || (r == Round(i, n) && p < Turn(i, n)))
    ensures j < i && Round(j, n) == r && Turn(j, n) == p
    decreases i
  {
    if Round(i - 1, n) == r && Turn(i - 1, n) == p {
      j := i - 1;
    } else {
      j := TurnTaken(i - 1, n, r, p);
    }
  }

  /** Position of a voter. */
  ghost function Place(c: Crew, k: Key): (p: nat)
    requires k in Correct(c)
    ensures p < |c.voters| && c.voters[p] == k
  {
    var p: nat :| p < |c.voters| && c.voters[p] == k;
    p
  }

  /** How many proposals a voter has handled before step `i`. */
  ghost function Handled(c: Crew, k: Key, i: nat): nat
    requires k in Correct(c)
  {
    Round(i, |c.voters|) + if Place(c, k) < Turn(i, |c.voters|) then 1 else 0
  }

  ghost function EventAt(c: Crew, i: nat): Event
    requires c.voters != []
  {
    var n := |c.voters|;
    Event(c.voters[Turn(i, n)], Round(i, n) + 1, true, ChainBlock(c, Round(i, n) + 1))
  }

  ghost function StatesAt(c: Crew, i: nat): map<Key, Replica>
    requires c.all != {}
  {
    map k | k in Correct(c) :: StateAt(c, Handled(c, k, i))
  }

  ghost predicate ChainRun(c: Crew, t: Trace) {
    && CrewOk(c) && t.validators == c.all && t.correct == Correct(c) && |t.states| == |t.events| + 1
    && (forall i :: 0 <= i < |t.events| ==> t.events[i] == EventAt(c, i))
    && (forall i :: 0 <= i < |t.states| ==> t.states[i] == StatesAt(c, i))
  }

  /** There is such a run of every length. */
  lemma {:induction false} HonestRunExists(c: Crew, m: nat) returns (t: Trace)
    requires CrewOk(c)
    ensures ChainRun(c, t) && |t.events| == m
  {
    t := Trace(c.all, Correct(c), seq(m + 1, (i: nat) => StatesAt(c, i)), seq(m, (i: nat) => EventAt(c, i)));
  }

  lemma {:induction false} PlaceOf(c: Crew, p: nat)
    requires CrewOk(c) && p < |c.voters|
    ensures c.voters[p] in Correct(c) && Place(c, c.voters[p]) == p
  {
    assert c.voters[p] in Correct(c);
    var q := Place(c, c.voters[p]);
    assert c.voters[q] == c.voters[p];
  }

  /** A step moves exactly the voter whose turn it is. */
  lemma {:induction false} HandledNext(c: Crew, k: Key, i: nat)
    requires CrewOk(c) && k in Correct(c)
    ensures var n := |c.voters|;
      if k == c.voters[Turn(i, n)]
      then Handled(c, k, i) == Round(i, n) && Handled(c, k, i + 1) == Round(i, n) + 1
      else Handled(c, k, i + 1) == Handled(c, k, i)
  {
    PlaceOf(c, Turn(i, |c.voters|));
    PlaceOf(c, Place(c, k));
  }

  lemma {:induction false} StateOf(c: Crew, i: nat, k: Key, n: nat)
    requires CrewOk(c) && k in Correct(c) && n == Handled(c, k, i)
    ensures k in StatesAt(c, i) && StatesAt(c, i)[k] == StateAt(c, n)
  {
  }

  lemma {:induction false} StatesNext(c: Crew, i: nat, k: Key, x: Replica, y: Replica)
    requires CrewOk(c) && k == c.voters[Turn(i, |c.voters|)]
    requires x == StateAt(c, Round(i, |c.voters|)) && y == StateAt(c, Round(i, |c.voters|) + 1)
    ensures k in StatesAt(c, i) && StatesAt(c, i)[k] == x && StatesAt(c, i + 1) == StatesAt(c, i)[k := y]
  {
    OwnState(c, i, k);
    forall j | j in Correct(c) && j != k
      ensures j in StatesAt(c, i) && j in StatesAt(c, i + 1) && StatesAt(c, i + 1)[j] == StatesAt(c, i)[j]
    {
      OtherState(c, i, j);
    }
    Replaced(StatesAt(c, i), StatesAt(c, i + 1), Correct(c), k, y);
  }

  lemma {:induction false} Replaced(pre: map<Key, Replica>, post: map<Key, Replica>, keys: set<Key>, k: Key, y: Replica)
    requires pre.Keys == post.Keys == keys && k in keys && post[k] == y
    requires forall j :: j in keys && j != k ==> post[j] == pre[j]
    ensures post == pre[k := y]
  {
  }

  lemma {:induction false} OwnState(c: Crew, i: nat, k: Key)
    requires CrewOk(c) && k == c.voters[Turn(i, |c.voters|)]
    ensures k in Correct(c) && k in StatesAt(c, i) && StatesAt(c, i)[k] == StateAt(c, Round(i, |c.voters|))
    ensures k in StatesAt(c, i + 1) && StatesAt(c, i + 1)[k] == StateAt(c, Round(i, |c.voters|) + 1)
  {
    assert k in Correct(c);
    HandledNext(c, k, i);
    StateOf(c, i, k, Handled(c, k, i));
    StateOf(c, i + 1, k, Handled(c, k, i + 1));
  }

  lemma {:induction false} OtherState(c: Crew, i: nat, j: Key)
    requires CrewOk(c) && j in Correct(c) && j != c.voters[Turn(i, |c.voters|)]
    ensures j in StatesAt(c, i) && j in StatesAt(c, i + 1) && StatesAt(c, i + 1)[j] == StatesAt(c, i)[j]
  {
    HandledNext(c, j, i);
    StateOf(c, i, j, Handled(c, j, i));
    StateOf(c, i + 1, j, Handled(c, j, i));
  }

  lemma {:induction false} ChainRunAt(c: Crew, t: Trace, i: nat)
    requires ChainRun(c, t) && i < |t.events|
    ensures c.voters != [] && c.all != {} && CrewOk(c) == true && i + 1 < |t.states| && t.correct == Correct(c)
      && t.validators == c.all
    ensures t.events[i] == EventAt(c, i) && t.states[i] == StatesAt(c, i) && t.states[i + 1] == StatesAt(c, i + 1)
  {
  }

  /** What the replica whose turn it is does with its proposal. */
  lemma {:induction false} Handles(c: Crew, n: nat)
    requires CrewOk(c) == true && c.all != {}
    ensures HandleProposal(StateAt(c, n), true, ChainBlock(c, n + 1))
         == (StateAt(c, n + 1), Reaction(Some(ChainBlock(c, n + 1)), if n >= 2 then Some(ChainBlock(c, n - 2))
            else None))
  {
    StateAtChain(c, n);
    StateNext(c, n);
    ChainStep(c, StateAt(c, n), n);
  }

  lemma {:induction false} StepIs(t: Trace, i: nat, k: Key, v: nat, node: Block, s: Replica, s': Replica, re: Reaction)
    requires i < |t.events| && |t.states| == |t.events| + 1 && t.events[i] == Event(k, v, true, node)
    requires k in t.states[i] && t.states[i][k] == s && s.validators != {}
    requires HandleProposal(s, true, node) == (s', re) && t.states[i + 1] == t.states[i][k := s']
    ensures StepAt(t, i) == true
  {
  }

  lemma {:induction false} ReactionIs(
      t: Trace, i: nat, k: Key, v: nat, node: Block, s: Replica, s': Replica, re: Reaction)
    requires IsRun(t) == true && i < |t.events| && t.events[i] == Event(k, v, true, node)
    requires k in t.states[i] && t.states[i][k] == s && s.validators != {} && HandleProposal(s, true, node) == (s', re)
    ensures Actor(t, i) == s && ActorNext(t, i) == s' && ReactionAt(t, i) == re
  {
  }

  /** What is needed of a handled proposal. */
  ghost predicate Handling(n: nat, node: Block, s: Replica, s': Replica, re: Reaction) {
    && s.validators != {} && HandleProposal(s, true, node) == (s', re)
    && node.Normal? && HashBlock(node) == ChainHash(n + 1) && node.justify.block == ChainHash(n)
    && re.vote != None && HeldAt(s'.store, node)
    && (n >= 3 ==> re.commit != None && HashBlock(re.commit.value) == ChainHash(n - 2))
  }

  lemma {:induction false} ReactionHashes(c: Crew, n: nat)
    ensures var node := ChainBlock(c, n + 1);
      node.Normal? && HashBlock(node) == ChainHash(n + 1) && node.justify.block == ChainHash(n)
    ensures n >= 2 ==> HashBlock(ChainBlock(c, n - 2)) == ChainHash(n - 2)
  {
    ChainQcFacts(c, n);
    ChainQcFacts(c, n + 1);
    if n >= 2 {
      ChainQcFacts(c, n - 2);
    }
  }

  lemma {:induction false} HandlingAt(c: Crew, n: nat) returns (node: Block, s: Replica, s': Replica, re: Reaction)
    requires CrewOk(c) == true && c.all != {}
    ensures Handling(n, node, s, s', re) == true
    ensures node == ChainBlock(c, n + 1) && s == StateAt(c, n) && s' == StateAt(c, n + 1)
  {
    node, s, s' := ChainBlock(c, n + 1), StateAt(c, n), StateAt(c, n + 1);
    re := Reaction(Some(node), if n >= 2 then Some(ChainBlock(c, n - 2)) else None);
    Handles(c, n);
    HeldInChain(c, n);
    ReactionHashes(c, n);
  }

  /** Step `i` of the run, in round `r`. */
  lemma {:induction false} StepData(c: Crew, t: Trace, i: nat, r: nat)
    returns (k: Key, node: Block, s: Replica, s': Replica, re: Reaction)
    requires ChainRun(c, t) == true && i < |t.events| && c.voters != [] && r == Round(i, |c.voters|)
    ensures |t.states| == |t.events| + 1
    ensures k == c.voters[Turn(i, |c.voters|)] && t.events[i] == Event(k, r + 1, true, node)
    ensures k in t.states[i] && t.states[i][k] == s && t.states[i + 1] == t.states[i][k := s']
    ensures Handling(r, node, s, s', re) == true
  {
    k := c.voters[Turn(i, |c.voters|)];
    node, s, s', re := HandlingAt(c, r);
    StepStates(c, t, i, k, s, s');
  }

  lemma {:induction false} StepStates(c: Crew, t: Trace, i: nat, k: Key, x: Replica, y: Replica)
    requires ChainRun(c, t) == true && i < |t.events| && c.voters != [] && c.all != {}
    requires k == c.voters[Turn(i, |c.voters|)]
    requires x == StateAt(c, Round(i, |c.voters|)) && y == StateAt(c, Round(i, |c.voters|) + 1)
    ensures |t.states| == |t.events| + 1 && t.events[i] == EventAt(c, i)
    ensures k in t.states[i] && t.states[i][k] == x && t.states[i + 1] == t.states[i][k := y]
  {
    ChainRunAt(c, t, i);
    StatesNext(c, i, k, x, y);
  }

  lemma {:induction false} ChainStepOk(c: Crew, t: Trace, i: nat)
    requires ChainRun(c, t) == true && i < |t.events| && c.voters != []
    ensures StepAt(t, i) == true
  {
    var k, node, s, s', re := StepData(c, t, i, Round(i, |c.voters|));
    StepIs(t, i, k, Round(i, |c.voters|) + 1, node, s, s', re);
  }

  lemma {:induction false} ChainStatesOk(c: Crew, t: Trace)
    requires ChainRun(c, t)
    ensures t.validators != {} && t.correct <= t.validators && |t.states| == |t.events| + 1
    ensures forall i :: 0 <= i < |t.states| ==> t.states[i].Keys == t.correct
    ensures forall i, k :: 0 <= i < |t.states| && k in t.correct ==> t.states[i][k].validators == t.validators
    ensures forall k :: k in t.correct ==> t.states[0][k] == Initial(t.validators)
  {
    forall k | k in t.correct ensures t.states[0][k] == Initial(t.validators) {
      assert Handled(c, k, 0) == 0;
    }
  }

  lemma {:induction false} ChainRunIsRun(c: Crew, t: Trace)
    requires ChainRun(c, t) == true && c.voters != []
    ensures IsRun(t) == true
  {
    ChainStatesOk(c, t);
    forall i | 0 <= i < |t.events| ensures StepAt(t, i) {
      ChainStepOk(c, t, i);
    }
  }

  lemma {:induction false} ChainVoteAt(c: Crew, t: Trace, i: nat, r: nat)
    requires ChainRun(c, t) == true && IsRun(t) == true && i < |t.events| && c.voters != [] && r == Round(i, |c.voters|)
    ensures IsVoteFor(t, i, c.voters[Turn(i, |c.voters|)], r + 1, ChainHash(r + 1)) == true
  {
    var k, node, s, s', re := StepData(c, t, i, r);
    VoteIs(t, i, k, r, node, s, s', re);
  }

  lemma {:induction false} CommitIs(
      t: Trace, i: nat, k: Key, n: nat, node: Block, s: Replica, s': Replica, re: Reaction)
    requires IsRun(t) == true && i < |t.events| && t.events[i] == Event(k, n + 1, true, node)
    requires k in t.states[i] && t.states[i][k] == s && Handling(n, node, s, s', re) == true && n >= 3
    ensures Commits(t, i, ChainHash(n - 2)) == true
  {
    ReactionIs(t, i, k, n + 1, node, s, s', re);
  }

  lemma {:induction false} VoteIs(t: Trace, i: nat, k: Key, n: nat, node: Block, s: Replica, s': Replica, re: Reaction)
    requires IsRun(t) == true && i < |t.events| && t.events[i] == Event(k, n + 1, true, node)
    requires k in t.states[i] && t.states[i][k] == s && Handling(n, node, s, s', re) == true
    ensures IsVoteFor(t, i, k, n + 1, ChainHash(n + 1)) == true
  {
    ReactionIs(t, i, k, n + 1, node, s, s', re);
  }

  // ---------- the hypotheses ----------

  lemma {:induction false} LocksGrowInChain(c: Crew, t: Trace)
    requires ChainRun(c, t) == true && IsRun(t) == true
    ensures LocksGrow(t) == true
  {
    forall i: nat, k ensures GrowsAt(t, i, k) {
      if i < |t.events| && k in t.correct {
        ChainRunLocks(c, t, i, k);
      }
    }
  }

  lemma {:induction false} ChainRunLocks(c: Crew, t: Trace, i: nat, k: Key)
    requires ChainRun(c, t) && i < |t.events| && k in t.correct
    ensures k in t.states[i] && k in t.states[i + 1]
    ensures t.states[i][k].locked.view <= t.states[i + 1][k].locked.view
  {
    HandledNext(c, k, i);
    LockViewAt(c, Handled(c, k, i));
    LockViewAt(c, Handled(c, k, i + 1));
  }

  lemma {:induction false} HeldInChain(c: Crew, n: nat)
    requires CrewOk(c) == true && c.all != {}
    ensures HeldAt(StateAt(c, n + 1).store, ChainBlock(c, n + 1))
  {
    StateAtChain(c, n + 1);
    ChainQcFacts(c, n);
    assert StoredAt(c, StateAt(c, n + 1).store, n);
    if n > 0 {
      ChainQcFacts(c, n - 1);
      assert StoredAt(c, StateAt(c, n + 1).store, n - 1);
    }
  }

  /** Every voter voted for the block of every complete round. */
  lemma {:induction false} ChainVoted(c: Crew, t: Trace, i: nat, r: nat, k: Key)
    requires ChainRun(c, t) == true && IsRun(t) == true && i < |t.events| && c.voters != [] && c.all != {}
      && k in Correct(c)
    requires r < Round(i, |c.voters|)
    ensures VotedFor(t, k, r + 1, ChainHash(r + 1)) == true
  {
    var j := TurnTaken(i, |c.voters|, r, Place(c, k));
    ChainVoteAt(c, t, j, r);
  }

  lemma {:induction false} CertificateUnforged(c: Crew, t: Trace, n: nat)
    requires IsRun(t) == true && t.correct == Correct(c)
    requires forall k :: k in Correct(c) && n > 0 ==> VotedFor(t, k, n, ChainHash(n)) == true
    ensures UnforgedAt(t, ChainBlock(c, n + 1)) == true
  {
    ChainQcFacts(c, n);
  }

  lemma {:induction false} RoundUnforged(c: Crew, t: Trace, i: nat, r: nat)
    requires ChainRun(c, t) == true && IsRun(t) == true && i < |t.events| && c.voters != [] && c.all != {}
    requires r == Round(i, |c.voters|)
    ensures UnforgedAt(t, ChainBlock(c, r + 1)) == true
  {
    ChainRunAt(c, t, i);
    forall k | k in Correct(c) && r > 0 ensures VotedFor(t, k, r, ChainHash(r)) == true {
      ChainVoted(c, t, i, r - 1, k);
    }
    CertificateUnforged(c, t, r);
  }

  lemma {:induction false} CertificatesInChain(c: Crew, t: Trace)
    requires ChainRun(c, t) == true && IsRun(t) == true && c.voters != [] && c.all != {}
    ensures Unforged(t) == true
  {
    forall i: nat | i < |t.events| ensures UnforgedAt(t, t.events[i].node) == true {
      ChainRunAt(c, t, i);
      RoundUnforged(c, t, i, Round(i, |c.voters|));
    }
  }

  lemma {:induction false} AncestorsInChain(c: Crew, t: Trace)
    requires ChainRun(c, t) == true && IsRun(t) == true && c.voters != [] && c.all != {} && CrewOk(c) == true
    ensures AncestorsHeld(t) == true
  {
    forall i: nat | Votes(t, i) ensures HeldAt(ActorNext(t, i).store, t.events[i].node) == true {
      var k, node, s, s', re := StepData(c, t, i, Round(i, |c.voters|));
      ReactionIs(t, i, k, Round(i, |c.voters|) + 1, node, s, s', re);
    }
  }

  lemma {:induction false} LinkedInChain(c: Crew, n: nat, h: Hash)
    requires CrewOk(c) == true && c.all != {} && h in StateAt(c, n).store && h != GenesisHash
    ensures Linked(StateAt(c, n).store[h])
  {
    StateAtChain(c, n);
    assert Within(h, n);
    var j: nat :| j <= n && h == ChainHash(j);
    assert StoredAt(c, StateAt(c, n).store, j);
    ChainQcFacts(c, j - 1);
  }

  lemma {:induction false} BlocksInChain(c: Crew, t: Trace)
    requires ChainRun(c, t) && IsRun(t) == true
    ensures CertifiedLinked(t) == true
  {
    forall i: nat, k, h ensures LinkedAt(t, i, k, h) {
      if i < |t.states| && k in t.correct && h in t.states[i][k].store && h != GenesisHash {
        assert t.states[i][k] == StateAt(c, Handled(c, k, i));
        LinkedInChain(c, Handled(c, k, i), h);
      }
    }
  }

  lemma {:induction false} ViewsInChain(c: Crew, t: Trace)
    requires ChainRun(c, t) && IsRun(t) == true
    ensures VotesIncrease(t) == true && VotesInView(t) == true
  {
    forall i: nat, j: nat ensures IncreaseAt(t, i, j) {
      if i < j < |t.events| && t.events[i].who == t.events[j].who {
        PlaceOf(c, Turn(i, |c.voters|));
        PlaceOf(c, Turn(j, |c.voters|));
        TurnsAdvance(i, j, |c.voters|);
      }
    }
  }

  /** The hypotheses of the agreement theorem can be met together, by any crew of voters that
      leaves fewer silent faults than two quorums share ... */
  lemma {:induction false} HonestRunMeetsHypotheses(c: Crew, t: Trace)
    requires ChainRun(c, t) == true
    requires |c.all - Correct(c)| < 2 * Quorum(|c.all|) - |c.all|
    ensures Hypotheses(t) == true
  {
    assert CrewOk(c) && c.voters != [] && c.all != {};
    ChainRunIsRun(c, t);
    LocksGrowInChain(c, t);
    CertificatesInChain(c, t);
    AncestorsInChain(c, t);
    BlocksInChain(c, t);
    ViewsInChain(c, t);
  }

  lemma {:induction false} ChainViews(n: nat, h: Hash)
    requires n >= 2 && h == ChainHash(n)
    ensures h.BlockHash? && h.parent.BlockHash? && ViewOf(h) == ViewOf(h.parent) + 1 == ViewOf(h.parent.parent) + 2
  {
    assert ChainHash(n) == BlockHash(ChainHash(n - 1), Zero, n);
    assert ChainHash(n - 1) == BlockHash(ChainHash(n - 2), Zero, n - 1);
    ChainQcFacts(Crew({}, []), n - 2);
  }

  lemma {:induction false} ConsecutiveIs(t: Trace, i: nat, h: Hash)
    requires IsRun(t) == true && i < |t.events| && t.events[i].node.Normal? && t.events[i].node.justify.block == h
    requires h.BlockHash? && h.parent.BlockHash? && ViewOf(h) == ViewOf(h.parent) + 1 == ViewOf(h.parent.parent) + 2
    ensures Consecutive(t, i) == true
  {
  }

  /** ... and in such a run every vote from the fourth block on commits the block three below,
      in consecutive views. */
  lemma {:induction false} HonestRunCommits(c: Crew, t: Trace, i: nat, r: nat)
    requires ChainRun(c, t) == true && IsRun(t) == true && c.voters != [] && i < |t.events|
    requires r == Round(i, |c.voters|) && r >= 3
    ensures t.events[i].node.Normal? && Consecutive(t, i) == true && Commits(t, i, ChainHash(r - 2)) == true
  {
    ChainConsecutive(c, t, i, r);
    ChainCommits(c, t, i, r);
  }

  lemma {:induction false} ChainConsecutive(c: Crew, t: Trace, i: nat, r: nat)
    requires ChainRun(c, t) == true && IsRun(t) == true && c.voters != [] && i < |t.events|
    requires r == Round(i, |c.voters|) && r >= 3
    ensures t.events[i].node.Normal? && Consecutive(t, i) == true
  {
    var k, node, s, s', re := StepData(c, t, i, r);
    ChainViews(r, node.justify.block);
    ConsecutiveIs(t, i, node.justify.block);
  }

  lemma {:induction false} ChainCommits(c: Crew, t: Trace, i: nat, r: nat)
    requires ChainRun(c, t) == true && IsRun(t) == true && c.voters != [] && i < |t.events|
    requires r == Round(i, |c.voters|) && r >= 3
    ensures Commits(t, i, ChainHash(r - 2)) == true
  {
    var k, node, s, s', re := StepData(c, t, i, r);
    CommitIs(t, i, k, r, node, s, s', re);
  }

  // ---------- what the voters hold ----------

  /** The first `m` blocks of the chain, the genesis block first. */
  function ChainUpTo(c: Crew, m: nat): (r: seq<Block>)
    ensures |r| == m && forall i :: 0 <= i < m ==> r[i] == ChainBlock(c, i)
  {
    seq(m, (i: nat) => ChainBlock(c, i))
  }

  lemma {:induction false} ChainStoreOk(c: Crew, store: Store, n: nat)
    requires StoresChain(c, store, n)
    ensures StoreOk(store)
  {
    forall h | h in store ensures HashBlock(store[h]) == h {
      assert Within(h, n);
      var i: nat :| i <= n && h == ChainHash(i);
      assert StoredAt(c, store, i);
      ChainQcFacts(c, i);
    }
  }

  /** After `n` proposals a voter holds the certificate of the block below the last one, and has
      committed the chain in order up to three below it. */
  lemma {:induction false} StateHolds(c: Crew, n: nat)
    requires CrewOk(c) == true && c.all != {}
    ensures StateAt(c, n).generic == ChainQc(c, Behind(n, 1))
    ensures StateAt(c, n).committed == ChainUpTo(c, Behind(n, 2))
  {
    if n > 0 {
      StateHolds(c, n - 1);
      HoldsNext(c, n - 1, StateAt(c, n - 1), StateAt(c, n));
    }
  }

  lemma {:induction false} HoldsNext(c: Crew, n: nat, r: Replica, r': Replica)
    requires CrewOk(c) == true && c.all != {} && r == StateAt(c, n) && r' == StateAt(c, n + 1)
    requires r.committed == ChainUpTo(c, Behind(n, 2))
    ensures r'.generic == ChainQc(c, n) && r'.committed == ChainUpTo(c, Behind(n + 1, 2))
  {
    StateAtChain(c, n);
    ChainStoreOk(c, r.store, n);
    ChainVotes(c, r, n);
    ChainQcFacts(c, n);
    Handles(c, n);
    VoteEffect(r, ChainBlock(c, n + 1));
  }

  /** In every state of such a run every voter holds the highest certificate it has seen, and its
      committed blocks are the chain, in order and without gaps. */
  lemma {:induction false} HonestRunHolds(c: Crew, t: Trace, i: nat, k: Key)
    requires ChainRun(c, t) && i < |t.states| && k in t.correct
    ensures k in t.states[i] && k in Correct(c)
    ensures t.states[i][k].generic == ChainQc(c, Behind(Handled(c, k, i), 1))
    ensures t.states[i][k].committed == ChainUpTo(c, Behind(Handled(c, k, i), 2))
  {
    StateHolds(c, Handled(c, k, i));
  }
}
