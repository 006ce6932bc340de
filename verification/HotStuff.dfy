/** A chained HotStuff replica: what it votes for, locks and commits. */
module HotStuff {
  import opened Orders
  import opened Merkle
  import opened Quorums

  /** A transaction as the replica sees it: its hash, and whether its signature is genuine. */
  datatype SignedTx = SignedTx(hash: Digest, genuine: bool)

  datatype Block = Genesis | Normal(parent: Hash, txs: seq<SignedTx>, view: nat, justify: Certificate, root: Digest)

  type Store = map<Hash, Block>

  /** The hash of a block does not cover its justify certificate. */
  function HashBlock(b: Block): Hash {
    match b
    case Genesis => GenesisHash
    case Normal(parent, _, view, _, root) => BlockHash(parent, root, view)
  }

  const GENESIS_QC := Certificate(0, GenesisHash, BlockMessage(0, GenesisHash), [])

  function ViewOf(h: Hash): nat { if h.GenesisHash? then 0 else h.view }

  /** `anc` is `h` or an ancestor of it. */
  predicate Descends(h: Hash, anc: Hash) { h == anc || (h.BlockHash? && Descends(h.parent, anc)) }

  lemma {:induction false} DescendsTrans(a: Hash, b: Hash, c: Hash)
    requires Descends(a, b) && Descends(b, c)
    ensures Descends(a, c)
  {
    if a != b {
      DescendsTrans(a.parent, b, c);
    }
  }

  lemma {:induction false} AllFromGenesis(h: Hash)
    ensures Descends(h, GenesisHash)
  {
    if h.BlockHash? {
      AllFromGenesis(h.parent);
    }
  }

  // ---------- the safety rule ----------

  /** One of the next `steps` ancestors of the block is `locked`. */
  function ExtendsFrom(b: Block, locked: Hash, store: Store, steps: nat): bool
    decreases steps
  {
    if steps == 0 || b.Genesis? then false
    else if b.parent == locked then true
    else if b.parent !in store then false
    else ExtendsFrom(store[b.parent], locked, store, steps - 1)
  }

  ghost predicate StoreOk(store: Store) {
    forall h :: h in store ==> HashBlock(store[h]) == h
  }

  /** The walk through the store follows the parent links that the hashes commit to. */
  lemma {:induction false} ExtendsFromSound(b: Block, locked: Hash, store: Store, steps: nat)
    requires StoreOk(store) && ExtendsFrom(b, locked, store, steps)
    ensures b.Normal? && Descends(b.parent, locked)
    decreases steps
  {
    if b.parent != locked {
      ExtendsFromSound(store[b.parent], locked, store, steps - 1);
    }
  }

  /** Conversely, with the ancestors in the store the walk finds every ancestor within reach. */
  lemma {:induction false} ExtendsFromComplete(b: Block, locked: Hash, store: Store, steps: nat, path: nat)
    requires StoreOk(store) && b.Normal? && path < steps && Ancestor(b.parent, path) == locked
    requires forall i :: 0 <= i < path ==> Ancestor(b.parent, i) in store && Ancestor(b.parent, i) != GenesisHash
    ensures ExtendsFrom(b, locked, store, steps)
    decreases path
  {
    if b.parent != locked {
      assert Ancestor(b.parent, 0) == b.parent;
      var p := store[b.parent];
      assert HashBlock(p) == b.parent;
      forall i | 0 <= i < path - 1 ensures Ancestor(p.parent, i) == Ancestor(b.parent, i + 1) {
      }
      ExtendsFromComplete(p, locked, store, steps - 1, path - 1);
    }
  }

  /** The ancestor `i` steps up; the genesis block is its own. */
  function Ancestor(h: Hash, i: nat): Hash
    decreases i
  {
    if i == 0 then h else if h.GenesisHash? then h else Ancestor(h.parent, i - 1)
  }

  method CheckExtends(b: Block, locked: Hash, store: Store) returns (ok: bool)
    ensures ok == ExtendsFrom(b, locked, store, 3)
  {
    var current := b;
    for i := 0 to 3
      invariant ExtendsFrom(current, locked, store, 3 - i) == ExtendsFrom(b, locked, store, 3)
    {
      match current {
        case Genesis => return false;
        case Normal(parent, _, _, _, _) =>
          if parent == locked {
            return true;
          }
          if parent !in store {
            return false;
          }
          current := store[parent];
      }
    }
    ok := false;
  }

  // ---------- handling a proposal ----------

  datatype Replica = Replica(
      validators: set<Key>, generic: Certificate, locked: Certificate, store: Store, committed: seq<Block>)

  function Initial(validators: set<Key>): Replica {
    Replica(validators, GENESIS_QC, GENESIS_QC, map[GenesisHash := Genesis], [])
  }

  predicate SafeNode(r: Replica, b: Block, qc: Certificate) {
    ExtendsFrom(b, r.locked.block, r.store, 3) || qc.view > r.locked.view
  }

  function Justified(store: Store, b: Block): Option<Block> {
    if b.Normal? && b.justify.block in store then Some(store[b.justify.block]) else None
  }

  predicate IsParent(child: Block, parent: Block) { child.Normal? && HashBlock(parent) == child.parent }

  function Hashes(txs: seq<SignedTx>): seq<Digest> {
    seq(|txs|, i requires 0 <= i < |txs| => txs[i].hash)
  }

  /** All transactions are genuine and the block commits to them. */
  predicate Sound(b: Block)
    requires b.Normal?
  {
    (forall i :: 0 <= i < |b.txs| ==> b.txs[i].genuine) && Root(Hashes(b.txs)) == b.root
  }

  /** What a replica answers to a proposal. */
  datatype Reaction = Reaction(vote: Option<Block>, commit: Option<Block>)

  function Stored(r: Replica, node: Block): Replica { r.(store := r.store[HashBlock(node) := node]) }

  /** The replica votes: it holds the justified block, the proposal is safe, its certificate
      is accepted and its content sound. */
  ghost predicate VotesFor(r: Replica, fromLeader: bool, node: Block)
    requires r.validators != {}
  {
    && fromLeader && Justified(Stored(r, node).store, node) != None
    && SafeNode(Stored(r, node), node, node.justify)
    && Accepted(node.justify, r.validators, Quorum(|r.validators|)) && Sound(node)
  }

  /** After its vote the replica updates its certificates along the chain of direct parents
      and commits the block three certificates up. */
  function Advance(r: Replica, node: Block): (Replica, Option<Block>) {
    match Justified(r.store, node)
    case None => (r, None)
    case Some(b2) =>
      if !IsParent(node, b2) then (r, None)
      else
        var r2 := r.(generic := node.justify);
        match Justified(r.store, b2)
        case None => (r2, None)
        case Some(b1) =>
          if !IsParent(b2, b1) then (r2, None)
          else
            var r3 := r2.(locked := b2.justify);
            match Justified(r.store, b1)
            case None => (r3, None)
            case Some(b) => if !IsParent(b1, b) then (r3, None) else (r3.(committed := r.committed + [b]), Some(b))
  }

  ghost function HandleProposal(r: Replica, fromLeader: bool, node: Block): (Replica, Reaction)
    requires r.validators != {}
  {
    if !fromLeader then (r, Reaction(None, None))
    else if !VotesFor(r, fromLeader, node) then (Stored(r, node), Reaction(None, None))
    else
      var (r', commit) := Advance(Stored(r, node), node);
      (r', Reaction(Some(node), commit))
  }

  // ---------- the rules in plain terms ----------

  /** The next three ancestors of the block are looked for in turn, as far as they are stored. */
  ghost predicate ReachesLock(b: Block, locked: Hash, store: Store)
    requires b.Normal?
  {
    exists i: nat :: i < 3 && Ancestor(b.parent, i) == locked &&
      forall j: nat :: j < i ==> Ancestor(b.parent, j) in store && Ancestor(b.parent, j) != GenesisHash
  }

  lemma {:induction false} WalkPath(b: Block, locked: Hash, store: Store, steps: nat) returns (i: nat)
    requires StoreOk(store) && ExtendsFrom(b, locked, store, steps)
    ensures b.Normal? && i < steps && Ancestor(b.parent, i) == locked
    ensures forall j: nat :: j < i ==> Ancestor(b.parent, j) in store && Ancestor(b.parent, j) != GenesisHash
    decreases steps
  {
    if b.parent == locked {
      i := 0;
    } else {
      var p := store[b.parent];
      var k := WalkPath(p, locked, store, steps - 1);
      i := k + 1;
      assert HashBlock(p) == b.parent;
      forall j: nat | j < i ensures Ancestor(b.parent, j) in store && Ancestor(b.parent, j) != GenesisHash {
        if j > 0 {
          assert Ancestor(b.parent, j) == Ancestor(p.parent, j - 1);
        }
      }
    }
  }

  /** Exactly when a replica votes. */
  lemma {:induction false} VotesIff(r: Replica, fromLeader: bool, node: Block)
    requires r.validators != {} && StoreOk(r.store)
    ensures VotesFor(r, fromLeader, node) <==>
      && fromLeader && node.Normal? && (node.justify.block in r.store || node.justify.block == HashBlock(node))
      && (node.justify.view > r.locked.view || ReachesLock(node, r.locked.block, r.store[HashBlock(node) := node]))
      && ((node.justify.view == 0 && node.justify.block == GenesisHash) ||
          |Endorsers(node.justify.sigs, r.validators, node.justify.message)| >= Quorum(|r.validators|))
      && (forall i :: 0 <= i < |node.txs| ==> node.txs[i].genuine)
      && Root(Hashes(node.txs)) == node.root
  {
    var store := r.store[HashBlock(node) := node];
    if node.Normal? {
      if ExtendsFrom(node, r.locked.block, store, 3) {
        var i := WalkPath(node, r.locked.block, store, 3);
      }
      if ReachesLock(node, r.locked.block, store) {
        var i: nat :| i < 3 && Ancestor(node.parent, i) == r.locked.block &&
          forall j: nat :: j < i ==> Ancestor(node.parent, j) in store && Ancestor(node.parent, j) != GenesisHash;
        ExtendsFromComplete(node, r.locked.block, store, 3, i);
      }
    }
  }

  /** The block of this hash is stored and its certificate is for its parent, which is stored. */
  predicate Direct(store: Store, h: Hash) {
    && h in store && store[h].Normal? && store[h].justify.block == store[h].parent && store[h].parent in store
  }

  /** All that a vote changes: the proposal is stored; if its certificate is for its parent that
      becomes the highest certificate; if so on one link up, the parent's becomes the lock; if so
      on two links up, the block there is committed, as the next one of the list. */
  lemma {:induction false} VoteEffect(r: Replica, node: Block)
    requires r.validators != {} && StoreOk(r.store) && VotesFor(r, true, node)
    ensures var (r', re) := HandleProposal(r, true, node);
      var store := r.store[HashBlock(node) := node];
      var one := node.justify.block == node.parent;
      var two := one && Direct(store, node.parent);
      var three := two && Direct(store, store[node.parent].parent);
      && re.vote == Some(node) && r'.validators == r.validators && r'.store == store
      && r'.generic == (if one then node.justify else r.generic)
      && r'.locked == (if two then store[node.parent].justify else r.locked)
      && re.commit == (if three then Some(store[store[store[node.parent].parent].parent]) else None)
      && r'.committed == r.committed + (if re.commit == None then [] else [re.commit.value])
  {
    var s := Stored(r, node);
    assert StoreOk(s.store);
    assert HandleProposal(r, true, node) == (Advance(s, node).0, Reaction(Some(node), Advance(s, node).1));
    assert r.committed + [] == r.committed;
  }

  /** Without a vote at most the proposal is stored. */
  lemma {:induction false} NoVoteEffect(r: Replica, fromLeader: bool, node: Block)
    requires r.validators != {} && !VotesFor(r, fromLeader, node)
    ensures var (r', re) := HandleProposal(r, fromLeader, node);
      && re.vote == None && re.commit == None && r'.validators == r.validators
      && r'.generic == r.generic && r'.locked == r.locked && r'.committed == r.committed
      && r'.store == if fromLeader then r.store[HashBlock(node) := node] else r.store
  {
  }

  // ---------- one vote per view? ----------

  /** Stores stay sound, so they are in every state of a run. */
  lemma {:induction false} StoreStaysOk(r: Replica, fromLeader: bool, node: Block)
    requires r.validators != {} && StoreOk(r.store)
    ensures StoreOk(HandleProposal(r, fromLeader, node).0.store)
  {
  }

  /** What a walk finds from a block it finds from a sibling, also in a larger store. */
  lemma {:induction false} SiblingExtends(a: Block, b: Block, locked: Hash, store: Store, more: Store, steps: nat)
    requires StoreOk(store) && StoreOk(more) && forall h :: h in store ==> h in more
    requires a.Normal? && b.Normal? && a.parent == b.parent && ExtendsFrom(a, locked, store, steps)
    ensures ExtendsFrom(b, locked, more, steps)
    decreases steps
  {
    if a.parent != locked {
      var p, q := store[a.parent], more[a.parent];
      assert HashBlock(p) == HashBlock(q) == a.parent;
      SiblingExtends(p, q, locked, store, more, steps - 1);
    }
  }

  /** The lock that a vote takes is two links above the proposal. */
  lemma {:induction false} LockTakenAbove(r: Replica, a: Block)
    requires r.validators != {} && StoreOk(r.store) && VotesFor(r, true, a)
    ensures var r' := HandleProposal(r, true, a).0;
      && r'.store == Stored(r, a).store && r'.validators == r.validators
      && (r'.locked != r.locked ==> ExtendsFrom(a, r'.locked.block, r'.store, 3))
  {
    var s := Stored(r, a);
    assert HandleProposal(r, true, a).0 == Advance(s, a).0;
    var b2 := Justified(s.store, a).value;
    if IsParent(a, b2) && Justified(s.store, b2) != None {
      assert HashBlock(b2) == a.justify.block == a.parent;
      assert HashBlock(Justified(s.store, b2).value) == b2.justify.block;
    }
  }

  /** Nothing keeps a replica from voting twice in a view. In any state with a sound store, a
      replica that just voted for a block votes for a sibling with the same certificate exactly
      if the contents of that sibling are sound; the lock it has taken never stops it. */
  lemma {:induction false} VotesAgainIff(r: Replica, a: Block, b: Block)
    requires r.validators != {} && StoreOk(r.store) && VotesFor(r, true, a)
    requires b.Normal? && b.parent == a.parent && b.justify == a.justify
    ensures VotesFor(HandleProposal(r, true, a).0, true, b) <==> Sound(b)
  {
    var r' := HandleProposal(r, true, a).0;
    LockTakenAbove(r, a);
    var before, after := Stored(r, a).store, Stored(r', b).store;
    if ExtendsFrom(a, r'.locked.block, before, 3) {
      SiblingExtends(a, b, r'.locked.block, before, after, 3);
    }
  }

  /** And there always is such a sibling in the same view, with another hash. */
  lemma {:induction false} SecondVote(r: Replica, a: Block) returns (b: Block)
    requires r.validators != {} && StoreOk(r.store) && VotesFor(r, true, a)
    ensures b.Normal? && b.view == a.view && HashBlock(b) != HashBlock(a)
    ensures VotesFor(HandleProposal(r, true, a).0, true, b)
  {
    var leaf := Leaf(if a.root == Leaf(0) then 1 else 0);
    b := Normal(a.parent, [SignedTx(leaf, true)], a.view, a.justify, leaf);
    assert Hashes(b.txs) == [leaf];
    VotesAgainIff(r, a, b);
  }

  /** For instance, a new replica votes for any two sound children of the genesis block in one
      view, one after the other. */
  lemma {:induction false} VotesTwice(validators: set<Key>, a: Block, b: Block)
    requires validators != {} && a.Normal? && b.Normal? && a != b && a.view == b.view
    requires a.parent == b.parent == GenesisHash && a.justify == b.justify == GENESIS_QC && Sound(a) && Sound(b)
    ensures var (r, ra) := HandleProposal(Initial(validators), true, a);
      ra.vote == Some(a) && r.validators == validators && HandleProposal(r, true, b).1.vote == Some(b)
  {
    assert VotesFor(Initial(validators), true, a);
    LockTakenAbove(Initial(validators), a);
    VotesAgainIff(Initial(validators), a, b);
  }

  // ---------- the replica object ----------

  class HotStuffReplica {
    const validators: set<Key>
    var generic: Certificate
    var locked: Certificate
    var store: Store
    var committed: seq<Block>

    function State(): Replica
      reads this
    {
      Replica(validators, generic, locked, store, committed)
    }

    constructor (validators: set<Key>)
      ensures State() == Initial(validators)
    {
      this.validators := validators;
      generic, locked := GENESIS_QC, GENESIS_QC;
      store, committed := map[GenesisHash := Genesis], [];
    }

    method React(fromLeader: bool, node: Block) returns (vote: Option<Block>, ghost commit: Option<Block>)
      requires validators != {}
      modifies this
      ensures (State(), Reaction(vote, commit)) == HandleProposal(old(State()), fromLeader, node)
    {
      vote, commit := None, None;
      if !fromLeader {
        return;
      }
      store := store[HashBlock(node) := node];
      var b2 := Justified(store, node);
      if b2 == None {
        return;
      }
      var reaches := CheckExtends(node, locked.block, store);
      var valid := Verify(node.justify, validators, Quorum(|validators|));
      if !((reaches || node.justify.view > locked.view) && valid) {
        return;
      }
      var root := ComputeMerkleRoot(Hashes(node.txs));
      if (exists i :: 0 <= i < |node.txs| && !node.txs[i].genuine) || root != node.root {
        return;
      }
      assert VotesFor(old(State()), fromLeader, node);
      vote := Some(node);
      commit := Follow(node);
    }

    /** Update the certificates along the chain of direct parents. */
    method Follow(node: Block) returns (ghost commit: Option<Block>)
      modifies this`generic, this`locked, this`committed
      ensures (State(), commit) == Advance(old(State()), node)
    {
      commit := None;
      var b2 := Justified(store, node);
      if b2 == None || !IsParent(node, b2.value) {
        return;
      }
      generic := node.justify;
      var b1 := Justified(store, b2.value);
      if b1 == None || !IsParent(b2.value, b1.value) {
        return;
      }
      locked := b2.value.justify;
      var b := Justified(store, b1.value);
      if b == None || !IsParent(b1.value, b.value) {
        return;
      }
      committed := committed + [b.value];
      commit := b;
    }
  }
}
