/** Runs of correct replicas, and why no two of them commit conflicting blocks. */
module Agreement {
  import opened Orders
  import opened Quorums
  import opened HotStuff

  /** A correct replica handles a proposal in its current view. */
  datatype Event = Event(who: Key, view: nat, fromLeader: bool, node: Block)

  /** The steps of the correct replicas; all others may send them anything. */
  datatype Trace = Trace(validators: set<Key>, correct: set<Key>, states: seq<map<Key, Replica>>, events: seq<Event>)

  ghost predicate IsRun(t: Trace) {
    && t.validators != {} && t.correct <= t.validators && |t.states| == |t.events| + 1
    && (forall i :: 0 <= i < |t.states| ==> t.states[i].Keys == t.correct)
    && (forall i, k :: 0 <= i < |t.states| && k in t.correct ==> t.states[i][k].validators == t.validators)
    && (forall k :: k in t.correct ==> t.states[0][k] == Initial(t.validators))
    && (forall i :: 0 <= i < |t.events| ==> StepAt(t, i))
  }

  ghost predicate StepAt(t: Trace, i: nat) {
    && i < |t.events| && |t.states| == |t.events| + 1 && t.events[i].who in t.states[i]
    && var e, r := t.events[i], t.states[i][t.events[i].who];
       && r.validators != {}
       && t.states[i + 1] == t.states[i][e.who := HandleProposal(r, e.fromLeader, e.node).0]
  }

  /** The replica of step `i`, before it. */
  ghost function Actor(t: Trace, i: nat): (r: Replica)
    requires IsRun(t) && i < |t.events|
    ensures r.validators == t.validators != {} && t.events[i].who in t.correct
  {
    assert StepAt(t, i);
    t.states[i][t.events[i].who]
  }

  /** ... and after it. */
  ghost function ActorNext(t: Trace, i: nat): (r: Replica)
    requires IsRun(t) && i < |t.events|
    ensures t.events[i].who in t.correct && t.events[i].who in t.states[i + 1] && r == t.states[i + 1][t.events[i].who]
  {
    assert StepAt(t, i);
    HandleProposal(Actor(t, i), t.events[i].fromLeader, t.events[i].node).0
  }

  ghost function ReactionAt(t: Trace, i: nat): Reaction
    requires IsRun(t) && i < |t.events|
  {
    HandleProposal(Actor(t, i), t.events[i].fromLeader, t.events[i].node).1
  }

  ghost predicate Votes(t: Trace, i: nat)
    requires IsRun(t)
  {
    i < |t.events| && ReactionAt(t, i).vote != None
  }

  /** Step `i` is a vote of `k` for `h` in view `view`. */
  ghost predicate IsVoteFor(t: Trace, i: nat, k: Key, view: nat, h: Hash)
    requires IsRun(t)
  {
    Votes(t, i) && t.events[i].who == k && t.events[i].view == view && HashBlock(t.events[i].node) == h
  }

  ghost predicate VotedFor(t: Trace, k: Key, view: nat, h: Hash)
    requires IsRun(t)
  {
    exists i :: IsVoteFor(t, i, k, view, h)
  }

  /** Everyone who may have signed a vote for `h` in its view: faulty validators always. */
  ghost function Backers(t: Trace, h: Hash): (r: set<Key>)
    requires IsRun(t)
    ensures r <= t.validators
  {
    set k | k in t.validators && (k in t.correct ==> VotedFor(t, k, ViewOf(h), h))
  }

  /** A quorum stands behind `h`, or may pretend to. */
  ghost predicate Certified(t: Trace, h: Hash)
    requires IsRun(t)
  {
    |Backers(t, h)| >= Quorum(|t.validators|)
  }

  // ---------- hypotheses on the run ----------

  /** Fewer faulty validators than two quorums share. */
  ghost predicate FewFaulty(t: Trace)
    requires IsRun(t)
  {
    |t.validators - t.correct| < 2 * Quorum(|t.validators|) - |t.validators|
  }

  /** Correct validators vote in increasing views, so at most once per view. */
  ghost predicate VotesIncrease(t: Trace)
    requires IsRun(t)
  {
    forall i: nat, j: nat :: IncreaseAt(t, i, j)
  }

  ghost predicate IncreaseAt(t: Trace, i: nat, j: nat)
    requires IsRun(t)
  {
    i < j && Votes(t, i) && Votes(t, j) && t.events[i].who == t.events[j].who ==> t.events[i].view < t.events[j].view
  }

  /** Votes are cast in the view of the block. */
  ghost predicate VotesInView(t: Trace)
    requires IsRun(t)
  {
    forall i: nat :: Votes(t, i) && t.events[i].node.Normal? ==> t.events[i].view == t.events[i].node.view
  }

  /** A lock is never replaced by one of a lower view. */
  ghost predicate LocksGrow(t: Trace)
    requires IsRun(t)
  {
    forall i: nat, k :: GrowsAt(t, i, k)
  }

  ghost predicate GrowsAt(t: Trace, i: nat, k: Key)
    requires IsRun(t)
  {
    i < |t.events| && k in t.correct ==> t.states[i][k].locked.view <= t.states[i + 1][k].locked.view
  }

  /** The certificates that correct replicas vote on carry their own view and block, and
      correct validators' signatures on them are real votes. */
  ghost predicate Unforged(t: Trace)
    requires IsRun(t)
  {
    forall i: nat :: Votes(t, i) ==> UnforgedAt(t, t.events[i].node)
  }

  ghost predicate UnforgedAt(t: Trace, node: Block)
    requires IsRun(t)
  {
    node.Normal? && !IsGenesis(node.justify) ==>
      && node.justify.message == BlockMessage(node.justify.view, node.justify.block)
      && forall k :: k in t.correct && Endorses(node.justify.sigs, k, node.justify.message) ==>
           VotedFor(t, k, node.justify.view, node.justify.block)
  }

  /** The justify certificate is for the parent, which has a smaller view. */
  ghost predicate Linked(b: Block) {
    b.Normal? && b.justify.block == b.parent && b.justify.view == ViewOf(b.parent) < b.view
  }

  /** Stored copies of certified blocks are linked. */
  ghost predicate CertifiedLinked(t: Trace)
    requires IsRun(t)
  {
    forall i: nat, k, h :: LinkedAt(t, i, k, h)
  }

  ghost predicate LinkedAt(t: Trace, i: nat, k: Key, h: Hash)
    requires IsRun(t)
  {
    i < |t.states| && k in t.correct && h in t.states[i][k].store && h != GenesisHash && Certified(t, h) ==>
      Linked(t.states[i][k].store[h])
  }

  /** Voters hold the block that their proposal's parent is justified by. */
  ghost predicate AncestorsHeld(t: Trace)
    requires IsRun(t)
  {
    forall i: nat :: Votes(t, i) ==> HeldAt(ActorNext(t, i).store, t.events[i].node)
  }

  ghost predicate HeldAt(store: Store, node: Block) {
    var b := Justified(store, node);
    b != None && b.value.Normal? ==> b.value.justify.block in store
  }

  ghost predicate Hypotheses(t: Trace) {
    && IsRun(t) && FewFaulty(t) && VotesIncrease(t) && VotesInView(t) && LocksGrow(t)
    && Unforged(t) && CertifiedLinked(t) && AncestorsHeld(t)
  }

  /** With n = 3f + 1 validators, f faults are few. */
  lemma {:induction false} FewFaultyOneThird(t: Trace, f: nat)
    requires IsRun(t) && |t.validators| == 3 * f + 1 && |t.validators - t.correct| <= f
    ensures FewFaulty(t)
  {
  }

  // ---------- what the steps keep ----------

  /** Only the acting replica changes, and only as it handles the proposal. */
  lemma {:induction false} OthersStand(t: Trace, i: nat, k: Key)
    requires IsRun(t) && i < |t.events| && k in t.correct && k != t.events[i].who
    ensures t.states[i + 1][k] == t.states[i][k]
  {
    assert StepAt(t, i);
  }

  lemma {:induction false} AdvanceStore(r: Replica, node: Block)
    ensures Advance(r, node).0.store == r.store && Advance(r, node).0.validators == r.validators
  {
  }

  /** Blocks are stored under their own hashes, and nothing is ever dropped. */
  lemma {:induction false} StoresOk(t: Trace, i: nat, k: Key)
    requires IsRun(t) && i < |t.states| && k in t.correct
    ensures StoreOk(t.states[i][k].store) && GenesisHash in t.states[i][k].store
  {
    if i > 0 {
      StoresOk(t, i - 1, k);
      if k == t.events[i - 1].who {
        var r, e := Actor(t, i - 1), t.events[i - 1];
        var r' := ActorNext(t, i - 1);
        AdvanceStore(Stored(r, e.node), e.node);
        assert r'.store == r.store || r'.store == Stored(r, e.node).store;
      } else {
        OthersStand(t, i - 1, k);
      }
    }
  }

  /** What a vote says about the voter. */
  lemma {:induction false} VoteFacts(t: Trace, i: nat)
    requires IsRun(t) && Votes(t, i)
    ensures var r, node := Actor(t, i), t.events[i].node;
      && VotesFor(r, t.events[i].fromLeader, node) && node.Normal?
      && ActorNext(t, i) == Advance(Stored(r, node), node).0
      && ActorNext(t, i).store == Stored(r, node).store
      && ReactionAt(t, i) == Reaction(Some(node), Advance(Stored(r, node), node).1)
  {
    AdvanceStore(Stored(Actor(t, i), t.events[i].node), t.events[i].node);
  }

  // ---------- certified blocks ----------

  lemma {:induction false} CommonCorrect(t: Trace, a: set<Key>, b: set<Key>) returns (k: Key)
    requires IsRun(t) && FewFaulty(t) && a <= t.validators && b <= t.validators
    requires |a| >= Quorum(|t.validators|) && |b| >= Quorum(|t.validators|)
    ensures k in a && k in b && k in t.correct
  {
    QuorumOverlap(t.validators, a, b, Quorum(|t.validators|));
    if a * b <= t.validators - t.correct {
      SubsetSize(a * b, t.validators - t.correct);
      assert false;
    }
    k :| k in a * b && k !in t.validators - t.correct;
  }

  /** Some correct replica voted for a certified block, in the block's view. */
  lemma {:induction false} CertifiedHasVote(t: Trace, h: Hash) returns (i: nat, k: Key)
    requires IsRun(t) && FewFaulty(t) && Certified(t, h)
    ensures k in t.correct && IsVoteFor(t, i, k, ViewOf(h), h)
  {
    k := CommonCorrect(t, Backers(t, h), Backers(t, h));
    i :| IsVoteFor(t, i, k, ViewOf(h), h);
  }

  lemma {:induction false} VoteInOwnView(t: Trace, i: nat, k: Key, view: nat, h: Hash)
    requires IsRun(t) && VotesInView(t) && IsVoteFor(t, i, k, view, h)
    ensures h != GenesisHash && view == ViewOf(h)
  {
    VoteFacts(t, i);
  }

  /** The certificate a correct replica votes on certifies its block, in the block's view. */
  lemma {:induction false} JustifyCertified(t: Trace, i: nat)
    requires Hypotheses(t) && Votes(t, i) && !IsGenesis(t.events[i].node.justify)
    ensures t.events[i].node.Normal?
    ensures var qc := t.events[i].node.justify;
      Certified(t, qc.block) && qc.view == ViewOf(qc.block) && qc.block != GenesisHash
  {
    VoteFacts(t, i);
    var qc := t.events[i].node.justify;
    var ends := Endorsers(qc.sigs, t.validators, qc.message);
    assert UnforgedAt(t, t.events[i].node);
    var k := CommonCorrect(t, ends, ends);
    var j :| IsVoteFor(t, j, k, qc.view, qc.block);
    VoteInOwnView(t, j, k, qc.view, qc.block);
    assert ends <= Backers(t, qc.block);
    SubsetSize(ends, Backers(t, qc.block));
  }

  /** The voter of a certified block has stored it, and its copy is linked. */
  lemma {:induction false} VotedLinked(t: Trace, i: nat, h: Hash)
    requires Hypotheses(t) && Votes(t, i) && HashBlock(t.events[i].node) == h && Certified(t, h)
    ensures h != GenesisHash && Linked(t.events[i].node) && t.events[i].node.parent == h.parent
  {
    VoteFacts(t, i);
    var k := t.events[i].who;
    assert t.states[i + 1][k] == ActorNext(t, i);
    assert h in t.states[i + 1][k].store && t.states[i + 1][k].store[h] == t.events[i].node;
    assert LinkedAt(t, i + 1, k, h);
  }

  /** The parent of a certified block is certified or the genesis block, in a smaller view. */
  lemma {:induction false} CertifiedParent(t: Trace, h: Hash)
    requires Hypotheses(t) && Certified(t, h)
    ensures h != GenesisHash && ViewOf(h.parent) < ViewOf(h)
    ensures h.parent == GenesisHash || Certified(t, h.parent)
  {
    var i, k := CertifiedHasVote(t, h);
    VotedLinked(t, i, h);
    if !IsGenesis(t.events[i].node.justify) {
      JustifyCertified(t, i);
    }
  }

  /** At most one block is certified per view. */
  lemma {:induction false} OnePerView(t: Trace, g: Hash, h: Hash)
    requires Hypotheses(t) && Certified(t, g) && Certified(t, h) && ViewOf(g) == ViewOf(h)
    ensures g == h
  {
    var k := CommonCorrect(t, Backers(t, g), Backers(t, h));
    var i :| IsVoteFor(t, i, k, ViewOf(g), g);
    var j :| IsVoteFor(t, j, k, ViewOf(h), h);
    SameStep(t, i, j);
  }

  lemma {:induction false} SameStep(t: Trace, i: nat, j: nat)
    requires IsRun(t) && VotesIncrease(t) && Votes(t, i) && Votes(t, j)
    requires t.events[i].who == t.events[j].who
    ensures t.events[i].view == t.events[j].view ==> i == j
    ensures t.events[i].view < t.events[j].view ==> i < j
  {
    assert IncreaseAt(t, i, j) && IncreaseAt(t, j, i);
  }

  /** Proper ancestors of certified blocks are certified or genesis, in smaller views. */
  lemma {:induction false} AncestorsBelow(t: Trace, g: Hash, anc: Hash)
    requires Hypotheses(t) && Certified(t, g) && g != GenesisHash && Descends(g.parent, anc)
    ensures ViewOf(anc) < ViewOf(g) && (anc == GenesisHash || Certified(t, anc))
    decreases g
  {
    CertifiedParent(t, g);
    if g.parent != anc {
      AncestorsBelow(t, g.parent, anc);
    }
  }

  // ---------- locks ----------

  /** Whoever votes for the third block of a certified chain of direct parents is then locked
      on the first. */
  lemma {:induction false} VoteLocks(t: Trace, i: nat, h: Hash, h1: Hash, h2: Hash)
    requires Hypotheses(t) && Votes(t, i) && HashBlock(t.events[i].node) == h2
    requires Certified(t, h1) && Certified(t, h2) && h2.BlockHash? && h2.parent == h1 && h1.BlockHash? && h1.parent == h
    ensures ActorNext(t, i).locked.block == h && ActorNext(t, i).locked.view == ViewOf(h)
  {
    var node, k := t.events[i].node, t.events[i].who;
    VoteFacts(t, i);
    VotedLinked(t, i, h2);
    StoresOk(t, i + 1, k);
    assert t.states[i + 1][k] == ActorNext(t, i);
    assert LinkedAt(t, i + 1, k, h1);
    assert HeldAt(ActorNext(t, i).store, node);
    AdvanceLocks(Stored(Actor(t, i), node), node, h, h1);
  }

  lemma {:induction false} AdvanceLocks(r: Replica, node: Block, h: Hash, h1: Hash)
    requires StoreOk(r.store) && Linked(node) && node.parent == h1 && h1.BlockHash? && h1.parent == h
    requires h1 in r.store && Linked(r.store[h1]) && HeldAt(r.store, node)
    ensures Advance(r, node).0.locked.block == h && Advance(r, node).0.locked.view == ViewOf(h)
  {
    var b2 := r.store[h1];
    assert HashBlock(b2) == h1;
    assert Justified(r.store, node) == Some(b2) && Justified(r.store, b2) == Some(r.store[h]);
    assert HashBlock(r.store[h]) == h;
  }

  /** The view of a lock is the view of the locked block. */
  lemma {:induction false} LockView(t: Trace, i: nat, k: Key)
    requires Hypotheses(t) && i < |t.states| && k in t.correct
    ensures LockFits(t.states[i][k])
  {
    if i > 0 {
      LockView(t, i - 1, k);
      LockViewStep(t, i - 1, k);
    }
  }

  ghost predicate LockFits(r: Replica) { r.locked.view == ViewOf(r.locked.block) }

  lemma {:induction false} LockViewStep(t: Trace, i: nat, k: Key)
    requires Hypotheses(t) && i < |t.events| && k in t.correct && LockFits(t.states[i][k]) == true
    ensures LockFits(t.states[i + 1][k]) == true
  {
    if k != t.events[i].who {
      OthersStand(t, i, k);
    } else {
      assert t.states[i][k] == Actor(t, i) && t.states[i + 1][k] == ActorNext(t, i);
      if Votes(t, i) {
        VoteLockView(t, i);
      } else {
        NoVoteNoLock(Actor(t, i), t.events[i].fromLeader, t.events[i].node);
      }
    }
  }

  lemma {:induction false} NoVoteNoLock(r: Replica, fromLeader: bool, node: Block)
    requires r.validators != {} && HandleProposal(r, fromLeader, node).1.vote == None
    ensures HandleProposal(r, fromLeader, node).0.locked == r.locked
  {
  }

  lemma {:induction false} VoteLockView(t: Trace, i: nat)
    requires Hypotheses(t) && Votes(t, i) && LockFits(Actor(t, i))
    ensures LockFits(ActorNext(t, i))
  {
    var node, k := t.events[i].node, t.events[i].who;
    VoteFacts(t, i);
    var store := ActorNext(t, i).store;
    assert t.states[i + 1][k] == ActorNext(t, i);
    StoresOk(t, i + 1, k);
    AdvanceLockIs(Stored(Actor(t, i), node), node);
    if ActorNext(t, i).locked != Actor(t, i).locked {
      JustifyCertified(t, i);
      assert LinkedAt(t, i + 1, k, node.justify.block);
    }
  }

  /** A new lock is the certificate in the block that the proposal justifies. */
  lemma {:induction false} AdvanceLockIs(r: Replica, node: Block)
    requires StoreOk(r.store) && node.Normal?
    ensures var r' := Advance(r, node).0;
      r'.locked == r.locked
      || (node.justify.block in r.store && node.justify.block != GenesisHash
          && r.store[node.justify.block].Normal? && r'.locked == r.store[node.justify.block].justify)
  {
  }

  lemma {:induction false} LockStays(t: Trace, i: nat, j: nat, k: Key)
    requires IsRun(t) && LocksGrow(t) && i <= j < |t.states| && k in t.correct
    ensures t.states[i][k].locked.view <= t.states[j][k].locked.view
  {
    if i < j {
      LockStays(t, i, j - 1, k);
      assert GrowsAt(t, j - 1, k);
    }
  }

  // ---------- safety ----------

  /** Three certified blocks, each the parent of the next, in consecutive views. */
  ghost predicate ThreeChain(t: Trace, h: Hash, h1: Hash, h2: Hash)
    requires IsRun(t)
  {
    && Certified(t, h1) && Certified(t, h2) && (h == GenesisHash || Certified(t, h))
    && h2.BlockHash? && h2.parent == h1 && h1.BlockHash? && h1.parent == h
    && ViewOf(h1) == ViewOf(h) + 1 && ViewOf(h2) == ViewOf(h) + 2
  }

  /** A correct replica that voted for the end of the chain is, at any later vote, locked on
      `h` or on something newer. */
  lemma {:induction false} LockedSince(t: Trace, h: Hash, h1: Hash, h2: Hash, i: nat, j: nat)
    requires Hypotheses(t) && ThreeChain(t, h, h1, h2) == true
    requires Votes(t, i) && HashBlock(t.events[i].node) == h2 && Votes(t, j) && t.events[j].who == t.events[i].who
    requires t.events[i].view < t.events[j].view
    ensures ViewOf(h) <= Actor(t, j).locked.view == ViewOf(Actor(t, j).locked.block)
  {
    var k := t.events[i].who;
    SameStep(t, i, j);
    VoteLocks(t, i, h, h1, h2);
    LockStays(t, i + 1, j, k);
    LockView(t, j, k);
  }

  /** So its safety rule leads below `g` to a block that is no older than `h`. */
  lemma {:induction false} RuleLeadsBack(t: Trace, h: Hash, h1: Hash, h2: Hash, g: Hash) returns (anc: Hash)
    requires Hypotheses(t) && ThreeChain(t, h, h1, h2) && h != GenesisHash && Certified(t, g) && ViewOf(g) > ViewOf(h2)
    ensures g.BlockHash? && Descends(g.parent, anc) && ViewOf(h) <= ViewOf(anc) < ViewOf(g) && Certified(t, anc)
  {
    var k := CommonCorrect(t, Backers(t, h2), Backers(t, g));
    var i :| IsVoteFor(t, i, k, ViewOf(h2), h2);
    var j :| IsVoteFor(t, j, k, ViewOf(g), g);
    LockedSince(t, h, h1, h2, i, j);
    VotedLinked(t, j, g);
    anc := SafeAncestor(t, j, g, ViewOf(h));
    CertifiedParent(t, h);
    AncestorsBelow(t, g, anc);
  }

  lemma {:induction false} SafeAncestor(t: Trace, j: nat, g: Hash, v: nat) returns (anc: Hash)
    requires Hypotheses(t) && Votes(t, j) && g.BlockHash? && HashBlock(t.events[j].node) == g
      && Linked(t.events[j].node)
    requires v <= Actor(t, j).locked.view == ViewOf(Actor(t, j).locked.block)
    ensures Descends(g.parent, anc) && v <= ViewOf(anc)
  {
    var node, r := t.events[j].node, Actor(t, j);
    VoteFacts(t, j);
    if node.justify.view > r.locked.view {
      anc := node.parent;
    } else {
      StoresOk(t, j + 1, t.events[j].who);
      assert ActorNext(t, j) == t.states[j + 1][t.events[j].who];
      ExtendsFromSound(node, r.locked.block, Stored(r, node).store, 3);
      anc := r.locked.block;
    }
  }

  /** Safety: every certified block in a view no lower than that of the first block of a
      three-chain descends from that block. */
  lemma {:induction false} ChainIsFinal(t: Trace, h: Hash, h1: Hash, h2: Hash, g: Hash)
    requires Hypotheses(t) && ThreeChain(t, h, h1, h2) && Certified(t, g) && ViewOf(g) >= ViewOf(h)
    ensures Descends(g, h)
    decreases ViewOf(g)
  {
    if h == GenesisHash {
      AllFromGenesis(g);
    } else if ViewOf(g) == ViewOf(h) {
      OnePerView(t, g, h);
    } else if ViewOf(g) == ViewOf(h1) {
      OnePerView(t, g, h1);
    } else if ViewOf(g) == ViewOf(h2) {
      OnePerView(t, g, h2);
    } else {
      var anc := RuleLeadsBack(t, h, h1, h2, g);
      ChainIsFinal(t, h, h1, h2, anc);
      DescendsTrans(g.parent, anc, h);
    }
  }

  // ---------- commits ----------

  ghost predicate Commits(t: Trace, i: nat, h: Hash)
    requires IsRun(t)
  {
    Votes(t, i) && ReactionAt(t, i).commit != None && HashBlock(ReactionAt(t, i).commit.value) == h
  }

  /** The views of the three certified blocks below the proposal that commits. */
  ghost predicate Consecutive(t: Trace, i: nat)
    requires IsRun(t) && i < |t.events| && t.events[i].node.Normal?
  {
    var h2 := t.events[i].node.justify.block;
    h2.BlockHash? && h2.parent.BlockHash? && ViewOf(h2) == ViewOf(h2.parent) + 1 == ViewOf(h2.parent.parent) + 2
  }

  /** A commit rests on a three-chain of certified blocks. */
  lemma {:induction false} CommitHasChain(t: Trace, i: nat, h: Hash) returns (h1: Hash, h2: Hash)
    requires Hypotheses(t) && Commits(t, i, h) && t.events[i].node.Normal? && Consecutive(t, i)
    ensures ThreeChain(t, h, h1, h2)
  {
    var node := t.events[i].node;
    VoteFacts(t, i);
    StoresOk(t, i + 1, t.events[i].who);
    AdvanceCommits(Stored(Actor(t, i), node), node);
    h2 := node.justify.block;
    h1 := h2.parent;
    JustifyCertified(t, i);
    CertifiedParent(t, h2);
    CertifiedParent(t, h1);
  }

  /** The committed block is the grandparent of the certified block below the proposal. */
  lemma {:induction false} AdvanceCommits(r: Replica, node: Block)
    requires StoreOk(r.store) && Advance(r, node).1 != None
    ensures node.Normal? && node.justify.block.BlockHash? && node.justify.block.parent.BlockHash?
    ensures HashBlock(Advance(r, node).1.value) == node.justify.block.parent.parent
  {
    var h2 := node.justify.block;
    assert HashBlock(r.store[h2]) == h2;
  }

  /** Agreement: two blocks committed by correct replicas are on one branch. */
  lemma {:induction false} CommitsAgree(t: Trace, i: nat, g: Hash, j: nat, h: Hash)
    requires Hypotheses(t) && Commits(t, i, g) && Commits(t, j, h)
    requires t.events[i].node.Normal? && t.events[j].node.Normal? && Consecutive(t, i) && Consecutive(t, j)
    ensures Descends(g, h) || Descends(h, g)
  {
    var g1, g2 := CommitHasChain(t, i, g);
    var h1, h2 := CommitHasChain(t, j, h);
    if g == GenesisHash {
      AllFromGenesis(h);
    } else if h == GenesisHash {
      AllFromGenesis(g);
    } else if ViewOf(g) <= ViewOf(h) {
      ChainIsFinal(t, g, g1, g2, h);
    } else {
      ChainIsFinal(t, h, h1, h2, g);
    }
  }
}
